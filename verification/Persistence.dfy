/** The posting transaction as the statements it is written in, over the mutable tables, refining
    `Persist`; with the table invariants it keeps. */
module Persistence {
  import opened Options
  import opened CoveredText
  import opened NaturalKeys
  import opened Ingestion
  import opened TableWrites
  import opened PostingEffects

  // A finished transaction's tables, compared with those it started on.
  ghost predicate Persisted(db: Db, call: Call, r: Result<(Db, Outcome)>) {
    && r.Ok? && ValidDb(r.value.0) && Extends(db, r.value.0) && r.value.1.Valid()
    && call.rawId in r.value.0.raws && r.value.0.raws[call.rawId].status != Fetched
  }

  /** Run alone on valid tables, a posting never meets an unstable or ambiguous natural key, keeps
      the tables valid and only extends them, and no later call reuses its raw row. */
  lemma PersistKeepsDb(hash: HashFunction, db: Db, call: Call, newJob: JobId, newOccurrence: OccurrenceId)
    requires ValidDb(db) && newJob !in db.jobs && newOccurrence !in db.occurrences
    ensures var r := Persist(hash, db, call, newJob, newOccurrence);
            if r.Ok? then Persisted(db, call, r) else r.error != Unstable && r.error != MultipleOccurrences
  {
    hide ValidDb, Extends, PersistFound, PersistMissed, Matching, NaturalLock, AssociationValid;
    if call.rawId in db.raws && AssociationValid(db.raws[call.rawId], call) {
      AssociationFacts(db.raws[call.rawId], call);
      KeyIsUnique(db, call.key);
      if |Matching(db, call.key)| == 1 {
        FoundKeepsDb(db, call, Only(Matching(db, call.key)));
      } else {
        MissKeepsDb(hash, db, call, newJob, newOccurrence);
      }
    }
  }

  lemma AssociationFacts(raw: Raw, call: Call)
    requires AssociationValid(raw, call)
    ensures raw.status == Fetched && ResolveIdentity(call.posting) == Some(call.key) && call.key.WellFormed()
  {
    hide NewRow, StoredForm, OwnKey, ResolveIdentity, Matches;
    NewRowFacts(call, 0);
  }

  lemma KeyIsUnique(db: Db, key: NaturalKey)
    requires ValidDb(db) && key.WellFormed()
    ensures |Matching(db, key)| <= 1
  {
    hide ValidOccurrences, UniqueNaturalKeys, Matching;
    MatchingAtMostOne(db, key);
  }

  lemma FoundKeepsDb(db: Db, call: Call, o: OccurrenceId)
    requires ValidDb(db) && o in Matching(db, call.key)
    requires call.rawId in db.raws && db.raws[call.rawId].status == Fetched
    ensures Persisted(db, call, PersistFound(db, call, o))
  {
    hide Extends, UniqueNaturalKeys, OneJobPerCanonicalUrl, ValidJobs, ValidRaws, StoredForm, Matches, IsMismatch;
    TouchKeepsDb(db, call, o, call.observedAt, IsMismatch(db.occurrences[o], call));
  }

  lemma MissKeepsDb(hash: HashFunction, db: Db, call: Call, newJob: JobId, newOccurrence: OccurrenceId)
    requires ValidDb(db) && newJob !in db.jobs && newOccurrence !in db.occurrences
    requires call.rawId in db.raws && db.raws[call.rawId].status == Fetched
    requires ResolveIdentity(call.posting) == Some(call.key) && |Matching(db, call.key)| == 0
    ensures var r := PersistMissed(hash, db, call, newJob, newOccurrence);
            r == Err(EncodingOverflow) || Persisted(db, call, r)
  {
    hide ValidDb, Extends, ResolveIdentity, Matching, TierLock, TierFilter, FilterCandidates, Decide;
    DecisionKeepsDb(db, call, newJob, newOccurrence);
  }

  lemma DecisionKeepsDb(db: Db, call: Call, newJob: JobId, newOccurrence: OccurrenceId)
    requires ValidDb(db) && newJob !in db.jobs && newOccurrence !in db.occurrences
    requires call.rawId in db.raws && db.raws[call.rawId].status == Fetched
    requires ResolveIdentity(call.posting) == Some(call.key) && |Matching(db, call.key)| == 0
    ensures var decision := Decide(FilterCandidates(db, TierFilter(call)));
            && (decision.AttachTo? ==> decision.job in db.jobs)
            && var db' := WriteNew(db, call, decision, if decision.AttachTo? then db.jobs[decision.job].lastSeen else 0,
                                   newJob, newOccurrence);
            && ValidDb(db') && Extends(db, db') && call.rawId in db'.raws && db'.raws[call.rawId].status != Fetched
            && NewOutcome(decision, newJob, newOccurrence).Valid()
  {
    hide Extends, UniqueNaturalKeys, ValidJobs, ValidRaws, StoredForm, Matches, IsMismatch, ResolveIdentity, NewRow,
      OneJobPerCanonicalUrl, Matching, ValidOccurrences, Decide, FilterCandidates, TierFilter, NewOutcome;
    var candidates := FilterCandidates(db, TierFilter(call));
    var decision := Decide(candidates);
    CandidatesAreJobs(db, TierFilter(call));
    DecisionIsValid(candidates, newJob, newOccurrence);
    NoneMatches(db, call.key);
    CanonicalUrlComesHome(db, call, newJob);
    AddKeepsDb(db, call, decision, newJob, newOccurrence);
    WritingFinishes(db, call, decision, if decision.AttachTo? then db.jobs[decision.job].lastSeen else 0, newJob, newOccurrence);
    hide WriteNew;
  }

  lemma DecisionIsValid(candidates: set<JobId>, newJob: JobId, newOccurrence: OccurrenceId)
    ensures var decision := Decide(candidates);
            (decision.AttachTo? ==> decision.job in candidates) && NewOutcome(decision, newJob, newOccurrence).Valid()
  {
  }

  lemma WritingFinishes(db: Db, call: Call, decision: Decision, jobLastSeen: Time, newJob: JobId, newOccurrence: OccurrenceId)
    requires call.rawId in db.raws && (decision.AttachTo? ==> decision.job in db.jobs)
    ensures var db' := WriteNew(db, call, decision, jobLastSeen, newJob, newOccurrence);
            call.rawId in db'.raws && db'.raws[call.rawId].status != Fetched
  {
    hide NewRow;
  }

  lemma NoneMatches(db: Db, key: NaturalKey)
    requires |Matching(db, key)| == 0
    ensures forall o :: o in db.occurrences ==> !Matches(key, db.occurrences[o])
  {
    hide Matches;
    forall o | o in db.occurrences
      ensures !Matches(key, db.occurrences[o])
    {
      assert o !in Matching(db, key);
    }
  }

  lemma CandidatesAreJobs(db: Db, filter: Option<Filter>)
    requires ValidOccurrences(db)
    ensures FilterCandidates(db, filter) <= db.jobs.Keys
  {
    hide StoredForm, FilterMatches;
  }

  // Every stored row with the posting's canonical URL belongs to the job the posting will join.
  lemma CanonicalUrlComesHome(db: Db, call: Call, newJob: JobId)
    requires OneJobPerCanonicalUrl(db)
    ensures call.posting.canonicalUrl.Some? ==>
      var decision := Decide(FilterCandidates(db, TierFilter(call)));
      forall o :: o in db.occurrences && db.occurrences[o].canonicalUrl == Some(call.posting.canonicalUrl.value)
        ==> db.occurrences[o].job == Home(decision, newJob)
  {
    hide OneJobPerCanonicalUrl;
    if call.posting.canonicalUrl.Some? {
      var url := call.posting.canonicalUrl.value;
      var candidates := Candidates(db, CanonicalUrl(url));
      CanonicalCandidatesAtMostOne(db, url);
      forall o | o in db.occurrences && db.occurrences[o].canonicalUrl == Some(url)
        ensures db.occurrences[o].job in candidates
      {
        assert FilterMatches(CanonicalUrl(url), db.occurrences[o]);
      }
    }
  }

  // What a limit-2 query's rows tell of the tier's decision.
  lemma ProbeTells(rows: seq<JobId>, all: set<JobId>)
    requires LimitTwo(rows, all)
    ensures match |rows|
            case 0 => Decide(all) == Insert
            case 1 => Decide(all) == AttachTo(rows[0]) && all == {rows[0]}
            case _ => Decide(all) == Ambiguous(SortedIds(all)) && |SortedIds(all)| >= 2
  {
    hide SortedIds;
    if |rows| == 1 {
      assert all == {Only(all)} && rows[0] in all;
    }
  }

  /** A caller that pairs a fetched row with its own posting and the key derived from it always
      passes the association check. */
  lemma DerivedKeyIsAccepted(call: Call)
    requires ResolveIdentity(call.posting) == Some(call.key)
    ensures AssociationValid(FetchedRow(call.posting), call)
  {
  }

  predicate CreatesJob(kind: UpsertKind) {
    kind == INSERTED || kind == AMBIGUOUS
  }

  predicate RecordsConflict(kind: UpsertKind) {
    kind == QUARANTINED || kind == AMBIGUOUS
  }

  // What a finished posting changed, by the kind it reported.
  ghost predicate KindTells(db: Db, call: Call, newJob: JobId, db': Db, kind: UpsertKind) {
    && db'.jobs.Keys == db.jobs.Keys + (if CreatesJob(kind) then {newJob} else {})
    && |db'.conflicts| == |db.conflicts| + (if RecordsConflict(kind) then 1 else 0)
    && db'.raws.Keys == db.raws.Keys && call.rawId in db.raws
    && (forall r :: r in db.raws && r != call.rawId ==> db'.raws[r] == db.raws[r])
    && db'.raws[call.rawId].status == (if RecordsConflict(kind) then IdentityConflict else Normalized)
  }

  /** The reported kind says exactly which rows were created: a job for an insertion or an
      ambiguity, a conflict for an ambiguity or a quarantine, and nothing else. */
  lemma PersistKindTells(hash: HashFunction, db: Db, call: Call, newJob: JobId, newOccurrence: OccurrenceId)
    requires Persist(hash, db, call, newJob, newOccurrence).Ok?
    ensures var (db', outcome) := Persist(hash, db, call, newJob, newOccurrence).value;
            KindTells(db, call, newJob, db', outcome.kind)
  {
    hide AssociationValid, NaturalLock, Matching, PersistFound, PersistMissed, KindTells;
    var matching := Matching(db, call.key);
    if |matching| == 1 {
      MatchingAreRows(db, call.key);
      FoundKindTells(db, call, Only(matching), newJob);
    } else {
      MissedKindTells(hash, db, call, newJob, newOccurrence);
    }
  }

  lemma MatchingAreRows(db: Db, key: NaturalKey)
    ensures Matching(db, key) <= db.occurrences.Keys
  {
    hide Matches;
  }

  lemma FoundKindTells(db: Db, call: Call, o: OccurrenceId, newJob: JobId)
    requires o in db.occurrences && call.rawId in db.raws && PersistFound(db, call, o).Ok?
    ensures var (db', outcome) := PersistFound(db, call, o).value;
            KindTells(db, call, newJob, db', outcome.kind)
  {
    hide NewRow, IsMismatch;
  }

  lemma MissedKindTells(hash: HashFunction, db: Db, call: Call, newJob: JobId, newOccurrence: OccurrenceId)
    requires call.rawId in db.raws && PersistMissed(hash, db, call, newJob, newOccurrence).Ok?
    ensures var (db', outcome) := PersistMissed(hash, db, call, newJob, newOccurrence).value;
            KindTells(db, call, newJob, db', outcome.kind)
  {
    hide NewRow, TierLock, TierFilter, FilterCandidates, Decide;
  }

  // What resolving a candidate tier comes to: nothing to attach to, an occurrence attached, or
  // the complete list of jobs that tie.
  datatype Resolution = NoCandidate | Attached(outcome: Outcome) | Tied(candidates: seq<JobId>)

  // The conflict row an outcome calls for.
  function ConflictFor(db: Db, call: Call, outcome: Outcome): Option<ConflictDetail>
    requires outcome.occurrence in db.occurrences && outcome.Valid()
  {
    match outcome.kind
    case QUARANTINED =>
      Some(EvidenceMismatch(outcome.occurrence, db.occurrences[outcome.occurrence].canonicalUrl, call.posting.canonicalUrl))
    case AMBIGUOUS => Some(AmbiguousMatch(outcome.candidates.value, outcome.occurrence))
    case _ => None
  }

  /** A method's result and its effect on the tables are those of its specification; an error
      leaves the tables as they were. */
  ghost predicate Refines(spec: Result<(Db, Outcome)>, db: Db, db': Db, r: Result<Outcome>) {
    match r
    case Ok(outcome) => spec == Ok((db', outcome))
    case Err(error) => spec == Err(error) && db' == db
  }

  // The same, up to the raw row's terminal update and the conflict row that go with the outcome.
  ghost predicate RefinesUnfinished(spec: Result<(Db, Outcome)>, db: Db, db': Db, call: Call, r: Result<Outcome>) {
    match r
    case Ok(outcome) =>
      && outcome.Valid() && outcome.occurrence in db'.occurrences && call.rawId in db'.raws
      && spec == Ok((FinishRaw(db', call, outcome.occurrence, ConflictFor(db', call, outcome)), outcome))
    case Err(error) => spec == Err(error) && db' == db
  }

  // Finishing the raw row changes no job and no occurrence.
  lemma UnfinishedTold(spec: Result<(Db, Outcome)>, db: Db, call: Call)
    requires spec.Ok? ==> Told(db, call, spec)
    ensures forall db', outcome :: RefinesUnfinished(spec, db, db', call, Ok(outcome)) ==>
      RowEffects(db, call, db', outcome) && ChosenAmong(db, call, outcome) && KeyDecides(db, call, outcome)
  {
    hide OccurrenceWritten, Matches, ChosenAmong, KeyDecides;
  }

  class Database {
    var jobs: map<JobId, Job>
    var occurrences: map<OccurrenceId, Occurrence>
    var raws: map<RawId, Raw>
    var conflicts: seq<Conflict>

    ghost function Contents(): Db
      reads this
    {
      Db(jobs, occurrences, raws, conflicts)
    }

    constructor ()
      ensures Contents() == EMPTY_DB && ValidDb(Contents())
    {
      jobs, occurrences, raws, conflicts := map[], map[], map[], [];
    }

    // Which two distinct jobs come back when there are more is the database's choice.
    method DiscoverCandidates(filter: Filter) returns (rows: seq<JobId>)
      ensures LimitTwo(rows, Candidates(Contents(), filter))
    {
      hide FilterMatches;
      var all := set o | o in occurrences && FilterMatches(filter, occurrences[o]) :: occurrences[o].job;
      assert all == Candidates(Contents(), filter);
      if all == {} {
        return [];
      }
      var first :| first in all;
      var others := all - {first};
      assert |all| == |others| + 1;
      if others == {} {
        return [first];
      }
      var second :| second in others;
      assert |others| >= 1;
      return [first, second];
    }

    method DiscoverAllCandidates(filter: Filter) returns (all: seq<JobId>)
      ensures all == SortedIds(Candidates(Contents(), filter))
    {
      var ids := set o | o in occurrences && FilterMatches(filter, occurrences[o]) :: occurrences[o].job;
      assert ids == Candidates(Contents(), filter);
      all := SortedIds(ids);
    }

    /** The limit-2 probe, the re-check under the candidate's lock and the authoritative requery
        come to exactly the simple specification of the tier, and attaching writes exactly the one
        new row and the one sighting. */
    method AttachToCandidate(filter: Filter, call: Call, newOccurrence: OccurrenceId) returns (r: Result<Resolution>)
      modifies `jobs, `occurrences
      ensures var db, decision := old(Contents()), Decide(Candidates(old(Contents()), filter));
              if decision.AttachTo? && decision.job !in db.jobs then r == Err(Unstable) && Contents() == db
              else match decision
                case Insert => r == Ok(NoCandidate) && Contents() == db
                case Ambiguous(all) => r == Ok(Tied(all)) && Contents() == db
                case AttachTo(job) =>
                  && r == Ok(Attached(Outcome(job, newOccurrence, ATTACHED, None)))
                  && Contents() == WithNewRows(db, call, job,
                       db.jobs[job].(lastSeen := Later(db.jobs[job].lastSeen, call.observedAt)), newOccurrence)
    {
      hide Candidates, Decide, SortedIds, NewRow;
      var candidates := DiscoverCandidates(filter);
      ProbeTells(candidates, Candidates(Contents(), filter));
      if |candidates| == 0 {
        return Ok(NoCandidate);
      }
      if |candidates| > 1 {
        var all := DiscoverAllCandidates(filter);
        if |all| < 2 {
          return Err(Unstable);
        }
        return Ok(Tied(all));
      }
      var job := candidates[0];
      if job !in jobs {
        return Err(Unstable);
      }
      var recheck := DiscoverCandidates(filter);
      ProbeTells(recheck, Candidates(Contents(), filter));
      if |recheck| > 1 {
        var all := DiscoverAllCandidates(filter);
        if |all| < 2 {
          return Err(Unstable);
        }
        return Ok(Tied(all));
      }
      if recheck != [job] {
        return Err(Unstable);
      }
      jobs := jobs[job := jobs[job].(lastSeen := Later(jobs[job].lastSeen, call.observedAt))];
      occurrences := occurrences[newOccurrence := NewRow(call, job)];
      return Ok(Attached(Outcome(job, newOccurrence, ATTACHED, None)));
    }

    // Transaction A: one raw row, in the fetched state.
    method WriteFetchedRow(posting: Posting, raw: RawId)
      requires ValidDb(Contents()) && raw !in raws
      modifies `raws
      ensures Contents() == old(Contents()).(raws := old(raws)[raw := FetchedRow(posting)])
      ensures ValidDb(Contents()) && Extends(old(Contents()), Contents())
    {
      hide Extends, FetchedRow, ValidOccurrences, ValidJobs, UniqueNaturalKeys, OneJobPerCanonicalUrl, ValidRaws;
      FetchedKeepsRaws(Contents(), raw, posting);
      raws := raws[raw := FetchedRow(posting)];
      SameTables(old(Contents()), Contents());
    }

    // Transaction C: the row constraint refuses to unprocess a linked row, which rolls back.
    method MarkParseError(raw: RawId) returns (ok: bool)
      requires ValidDb(Contents()) && raw in raws
      modifies `raws
      ensures Contents() == MarkedParseError(old(Contents()), raw)
      ensures ok <==> old(raws[raw].occurrence.None?)
      ensures ValidDb(Contents()) && Extends(old(Contents()), Contents())
    {
      hide Extends, FetchedRow, ValidOccurrences, ValidJobs, UniqueNaturalKeys, OneJobPerCanonicalUrl, ValidRaws;
      MarkKeepsRaws(Contents(), raw);
      ok := raws[raw].occurrence.None?;
      if ok {
        raws := raws[raw := raws[raw].(status := ParseError)];
      }
      SameTables(old(Contents()), Contents());
    }

    // The found branch: only sightings move.
    method TouchExisting(call: Call, o: OccurrenceId) returns (r: Result<Outcome>)
      requires o in occurrences && Matches(call.key, occurrences[o]) && call.rawId in raws
      modifies `jobs, `occurrences
      ensures RefinesUnfinished(PersistFound(old(Contents()), call, o), old(Contents()), Contents(), call, r)
      ensures r.Ok? ==> RowEffects(old(Contents()), call, Contents(), r.value)
    {
      hide NewRow, Matches, OwnKey, StoredForm, RowEffects, Told, ChosenAmong, KeyDecides;
      if PersistFound(Contents(), call, o).Ok? {
        FoundTold(Contents(), call, o);
      }
      UnfinishedTold(PersistFound(Contents(), call, o), Contents(), call);
      var row := occurrences[o];
      if row.job !in jobs {
        return Err(Unstable);
      }
      var mismatch := row.canonicalUrl.Some? && call.posting.canonicalUrl.Some?
                      && row.canonicalUrl.value != call.posting.canonicalUrl.value;
      occurrences := occurrences[o := row.(lastSeen := Later(row.lastSeen, call.observedAt), active := true)];
      jobs := jobs[row.job := jobs[row.job].(lastSeen := Later(jobs[row.job].lastSeen, call.observedAt))];
      return Ok(Outcome(row.job, o, if mismatch then QUARANTINED else UPDATED, None));
    }

    // The miss branch: the one tier that applies, then a standalone job unless it attached.
    method CreateOrAttach(hash: HashFunction, call: Call, newJob: JobId, newOccurrence: OccurrenceId)
      returns (r: Result<Outcome>)
      requires call.rawId in raws && ResolveIdentity(call.posting) == Some(call.key)
      requires newJob !in jobs && newOccurrence !in occurrences
      requires forall o :: o in occurrences ==> !Matches(call.key, occurrences[o])
      modifies `jobs, `occurrences
      ensures RefinesUnfinished(PersistMissed(hash, old(Contents()), call, newJob, newOccurrence),
                                old(Contents()), Contents(), call, r)
      ensures r.Ok? ==> RowEffects(old(Contents()), call, Contents(), r.value)
      ensures r.Ok? ==> ChosenAmong(old(Contents()), call, r.value)
    {
      hide NewRow, Matches, OwnKey, StoredForm, FilterMatches, Candidates, TierFilter, TierLock, SortedIds, ResolveIdentity,
        RowEffects, Told, ChosenAmong, KeyDecides;
      if PersistMissed(hash, Contents(), call, newJob, newOccurrence).Ok? {
        MissedTold(hash, Contents(), call, newJob, newOccurrence);
      }
      UnfinishedTold(PersistMissed(hash, Contents(), call, newJob, newOccurrence), Contents(), call);
      var ties: Option<seq<JobId>> := None;
      var filter := TierFilter(call);
      if filter.Some? {
        if TierLock(hash, filter.value).None? {
          return Err(EncodingOverflow);
        }
        var attached := AttachToCandidate(filter.value, call, newOccurrence);
        if attached.Err? {
          return Err(attached.error);
        }
        match attached.value {
          case Attached(outcome) => return Ok(outcome);
          case Tied(candidates) => ties := Some(candidates);
          case NoCandidate =>
        }
      }
      jobs := jobs[newJob := Job(call.observedAt, call.observedAt)];
      occurrences := occurrences[newOccurrence := NewRow(call, newJob)];
      return Ok(Outcome(newJob, newOccurrence, if ties.Some? then AMBIGUOUS else INSERTED, ties));
    }

    /** Resolves the posting and makes every occurrence and job write.  Finishing the raw row from
        here is all that `Persist` still asks for. */
    method UpsertJobOccurrence(hash: HashFunction, call: Call, newJob: JobId, newOccurrence: OccurrenceId)
      returns (r: Result<Outcome>)
      requires call.rawId in raws && AssociationValid(raws[call.rawId], call)
      requires newJob !in jobs && newOccurrence !in occurrences
      modifies `jobs, `occurrences
      ensures RefinesUnfinished(Persist(hash, old(Contents()), call, newJob, newOccurrence),
                                old(Contents()), Contents(), call, r)
      ensures r.Ok? ==> RowEffects(old(Contents()), call, Contents(), r.value)
      ensures r.Ok? ==> ChosenAmong(old(Contents()), call, r.value) && KeyDecides(old(Contents()), call, r.value)
    {
      AssociationExactly(raws[call.rawId], call);
      hide NewRow, Matches, OwnKey, StoredForm, PersistFound, PersistMissed, AssociationValid, NaturalLock, RowEffects, Told,
        ChosenAmong, KeyDecides, ResolveIdentity;
      if Persist(hash, Contents(), call, newJob, newOccurrence).Ok? {
        PersistTold(hash, Contents(), call, newJob, newOccurrence);
      }
      UnfinishedTold(Persist(hash, Contents(), call, newJob, newOccurrence), Contents(), call);
      MatchingRows(Contents(), call.key);
      var number := NaturalLock(hash, call.key);
      if number.None? {
        return Err(EncodingOverflow);
      }
      var matching := set o | o in occurrences && Matches(call.key, occurrences[o]);
      assert matching == Matching(Contents(), call.key);
      if |matching| > 1 {
        return Err(MultipleOccurrences);
      }
      if |matching| == 1 {
        r := TouchExisting(call, Only(matching));
      } else {
        r := CreateOrAttach(hash, call, newJob, newOccurrence);
      }
    }

    /** The whole transaction is `Persist`: on success the tables become exactly its tables, on any
        error they are rolled back, and either way every table invariant survives. */
    method PersistPosting(hash: HashFunction, call: Call, newJob: JobId, newOccurrence: OccurrenceId)
      returns (r: Result<Outcome>)
      requires ValidDb(Contents()) && newJob !in jobs && newOccurrence !in occurrences
      modifies this
      ensures Refines(Persist(hash, old(Contents()), call, newJob, newOccurrence), old(Contents()), Contents(), r)
      ensures ValidDb(Contents()) && (r.Ok? ==> Extends(old(Contents()), Contents()))
      ensures r.Ok? ==> Effects(old(Contents()), call, Contents(), r.value)
      ensures r.Ok? ==> ChosenAmong(old(Contents()), call, r.value) && KeyDecides(old(Contents()), call, r.value)
      ensures FailsExactly(old(Contents()), call, if r.Ok? then None else Some(r.error))
    {
      hide ValidDb, Extends, AssociationValid, Persist, Effects, RowEffects, ChosenAmong, KeyDecides, FailsExactly;
      PersistKeepsDb(hash, Contents(), call, newJob, newOccurrence);
      PersistFails(hash, Contents(), call, newJob, newOccurrence);
      if Persist(hash, Contents(), call, newJob, newOccurrence).Ok? {
        PersistTold(hash, Contents(), call, newJob, newOccurrence);
      }
      RefusedFails(hash, Contents(), call, newJob, newOccurrence);
      if call.rawId !in raws {
        return Err(NoRawRow);
      }
      if !AssociationValid(raws[call.rawId], call) {
        return Err(InvalidAssociation);
      }
      var resolution := UpsertJobOccurrence(hash, call, newJob, newOccurrence);
      if resolution.Err? {
        return Err(resolution.error);
      }
      var outcome := resolution.value;
      var raw := raws[call.rawId];
      match outcome.kind {
        case QUARANTINED =>
          var existing := occurrences[outcome.occurrence].canonicalUrl;
          conflicts := conflicts + [Conflict(call.rawId,
            EvidenceMismatch(outcome.occurrence, existing, call.posting.canonicalUrl))];
          raws := raws[call.rawId := raw.(status := IdentityConflict, occurrence := Some(outcome.occurrence))];
        case AMBIGUOUS =>
          conflicts := conflicts + [Conflict(call.rawId, AmbiguousMatch(outcome.candidates.value, outcome.occurrence))];
          raws := raws[call.rawId := raw.(status := IdentityConflict, occurrence := Some(outcome.occurrence))];
        case _ =>
          raws := raws[call.rawId := raw.(status := Normalized, occurrence := Some(outcome.occurrence))];
      }
      return Ok(outcome);
    }
  }
}
