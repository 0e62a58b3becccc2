/** What a transaction's writes keep: the table invariants, and the evidence already on file. */
module TableWrites {
  import opened Options
  import opened CoveredText
  import opened NaturalKeys
  import opened Ingestion

  // Rows differing only in their observational columns.
  predicate SameEvidence(row: Occurrence, row': Occurrence) {
    row' == row.(lastSeen := row'.lastSeen, active := row'.active)
  }

  /** Tables only grow, and only observational columns move, forward: no occurrence is deleted,
      re-keyed or handed to another job. */
  ghost predicate Extends(db: Db, db': Db) {
    && (forall o :: o in db.occurrences ==>
          && o in db'.occurrences && SameEvidence(db.occurrences[o], db'.occurrences[o])
          && db.occurrences[o].lastSeen <= db'.occurrences[o].lastSeen
          && (db.occurrences[o].active ==> db'.occurrences[o].active))
    && (forall j :: j in db.jobs ==>
          && j in db'.jobs && db'.jobs[j].firstSeen == db.jobs[j].firstSeen
          && db.jobs[j].lastSeen <= db'.jobs[j].lastSeen)
    && (forall r :: r in db.raws ==>
          && r in db'.raws
          && (db.raws[r].status != Fetched ==> db'.raws[r].status == db.raws[r].status)
          && (db.raws[r].occurrence.Some? ==> db'.raws[r] == db.raws[r]))
    && db.conflicts <= db'.conflicts
  }

  lemma ExtendsReflexive(db: Db)
    ensures Extends(db, db)
  {
  }

  lemma ExtendsTransitive(a: Db, b: Db, c: Db)
    requires Extends(a, b) && Extends(b, c)
    ensures Extends(a, c)
  {
    forall o | o in a.occurrences
      ensures o in c.occurrences && SameEvidence(a.occurrences[o], c.occurrences[o])
      ensures a.occurrences[o].lastSeen <= c.occurrences[o].lastSeen
    {
      assert SameEvidence(a.occurrences[o], b.occurrences[o]) && SameEvidence(b.occurrences[o], c.occurrences[o]);
    }
  }

  lemma EvidenceDecides(key: NaturalKey, filter: Filter, call: Call, row: Occurrence, row': Occurrence)
    requires SameEvidence(row, row')
    ensures Matches(key, row) <==> Matches(key, row')
    ensures FilterMatches(filter, row) <==> FilterMatches(filter, row')
    ensures OwnKey(row) == OwnKey(row')
    ensures StoredForm(row) <==> StoredForm(row')
    ensures IsMismatch(row, call) <==> IsMismatch(row', call)
  {
  }

  // ---------- The found branch ----------

  lemma TouchKeepsOccurrences(db: Db, call: Call, o: OccurrenceId, observedAt: Time, mismatch: bool)
    requires ValidDb(db) && o in db.occurrences && call.rawId in db.raws
    ensures var row := db.occurrences[o];
            var db' := WriteTouch(db, call, o, Later(row.lastSeen, observedAt),
                                  Later(db.jobs[row.job].lastSeen, observedAt), mismatch);
            ValidOccurrences(db') && ValidJobs(db')
  {
    hide UniqueNaturalKeys, OneJobPerCanonicalUrl, ValidRaws, CanonicalIdentifier, CanonicalNullable;
    var row := db.occurrences[o];
    var db' := WriteTouch(db, call, o, Later(row.lastSeen, observedAt),
                          Later(db.jobs[row.job].lastSeen, observedAt), mismatch);
    forall j | j in db'.jobs
      ensures db'.jobs[j].firstSeen <= db'.jobs[j].lastSeen
      ensures exists w :: w in db'.occurrences && db'.occurrences[w].job == j
                          && db'.occurrences[w].lastSeen == db'.jobs[j].lastSeen
    {
      var w :| w in db.occurrences && db.occurrences[w].job == j && db.occurrences[w].lastSeen == db.jobs[j].lastSeen;
      if j == row.job && observedAt >= db.jobs[j].lastSeen {
        assert db'.occurrences[o].job == j && db'.occurrences[o].lastSeen == db'.jobs[j].lastSeen;
      } else {
        assert db'.occurrences[w].job == j && db'.occurrences[w].lastSeen == db'.jobs[j].lastSeen;
      }
    }
  }

  lemma TouchKeepsIdentity(db: Db, call: Call, o: OccurrenceId, lastSeen: Time, jobLastSeen: Time, mismatch: bool)
    requires ValidDb(db) && o in db.occurrences && call.rawId in db.raws
    ensures var db' := WriteTouch(db, call, o, lastSeen, jobLastSeen, mismatch);
            UniqueNaturalKeys(db') && OneJobPerCanonicalUrl(db')
  {
    hide ValidRaws, ValidJobs, StoredForm, OwnKey, SameIdentity;
    var db' := WriteTouch(db, call, o, lastSeen, jobLastSeen, mismatch);
    forall p, q | p in db'.occurrences && q in db'.occurrences && p != q
      ensures !SameOwnKey(db'.occurrences[p], db'.occurrences[q])
    {
      EvidenceDecides(call.key, CanonicalUrl(""), call, db.occurrences[p], db'.occurrences[p]);
      EvidenceDecides(call.key, CanonicalUrl(""), call, db.occurrences[q], db'.occurrences[q]);
      assert !SameOwnKey(db.occurrences[p], db.occurrences[q]);
    }
  }

  // Finishing a fetched raw row keeps raw and conflict rows in correspondence.
  lemma FinishKeepsRaws(db: Db, call: Call, o: OccurrenceId, detail: Option<ConflictDetail>)
    requires ValidRaws(db) && call.rawId in db.raws && db.raws[call.rawId].status == Fetched && o in db.occurrences
    ensures ValidRaws(FinishRaw(db, call, o, detail))
  {
    var db' := FinishRaw(db, call, o, detail);
    forall r | r in db'.raws && db'.raws[r].status == IdentityConflict
      ensures exists i :: 0 <= i < |db'.conflicts| && db'.conflicts[i].raw == r
    {
      if r == call.rawId {
        assert db'.conflicts[|db.conflicts|].raw == r;
      } else {
        var i :| 0 <= i < |db.conflicts| && db.conflicts[i].raw == r;
        assert db'.conflicts[i].raw == r;
      }
    }
  }

  lemma TouchKeepsDb(db: Db, call: Call, o: OccurrenceId, observedAt: Time, mismatch: bool)
    requires ValidDb(db) && o in db.occurrences && call.rawId in db.raws && db.raws[call.rawId].status == Fetched
    ensures var row := db.occurrences[o];
            var db' := WriteTouch(db, call, o, Later(row.lastSeen, observedAt),
                                  Later(db.jobs[row.job].lastSeen, observedAt), mismatch);
            ValidDb(db') && Extends(db, db')
  {
    hide UniqueNaturalKeys, OneJobPerCanonicalUrl, ValidJobs, StoredForm, Extends;
    var row := db.occurrences[o];
    var lastSeen, jobLastSeen := Later(row.lastSeen, observedAt), Later(db.jobs[row.job].lastSeen, observedAt);
    TouchKeepsOccurrences(db, call, o, observedAt, mismatch);
    TouchKeepsIdentity(db, call, o, lastSeen, jobLastSeen, mismatch);
    TouchExtends(db, call, o, lastSeen, jobLastSeen, mismatch);
    var touched := db.(
      occurrences := db.occurrences[o := row.(lastSeen := lastSeen, active := true)],
      jobs := db.jobs[row.job := db.jobs[row.job].(lastSeen := jobLastSeen)]);
    FinishKeepsRaws(touched, call, o,
      if mismatch then Some(EvidenceMismatch(o, row.canonicalUrl, call.posting.canonicalUrl)) else None);
  }

  lemma TouchExtends(db: Db, call: Call, o: OccurrenceId, lastSeen: Time, jobLastSeen: Time, mismatch: bool)
    requires ValidDb(db) && o in db.occurrences && call.rawId in db.raws && db.raws[call.rawId].status == Fetched
    requires db.occurrences[o].lastSeen <= lastSeen && db.jobs[db.occurrences[o].job].lastSeen <= jobLastSeen
    ensures Extends(db, WriteTouch(db, call, o, lastSeen, jobLastSeen, mismatch))
  {
    hide UniqueNaturalKeys, OneJobPerCanonicalUrl, ValidJobs, StoredForm;
  }

  // ---------- The miss branch ----------

  // The tables with the miss branch's job and occurrence written, before the raw row is finished.
  function WithNewRows(db: Db, call: Call, job: JobId, jobRow: Job, newOccurrence: OccurrenceId): Db {
    db.(jobs := db.jobs[job := jobRow], occurrences := db.occurrences[newOccurrence := NewRow(call, job)])
  }

  // Where the new occurrence goes, and that job's row afterwards.
  function Home(decision: Decision, newJob: JobId): JobId {
    if decision.AttachTo? then decision.job else newJob
  }

  function HomeRow(db: Db, call: Call, decision: Decision): Job
    requires decision.AttachTo? ==> decision.job in db.jobs
  {
    if decision.AttachTo? then
      db.jobs[decision.job].(lastSeen := Later(db.jobs[decision.job].lastSeen, call.observedAt))
    else Job(call.observedAt, call.observedAt)
  }

  // Everything the miss branch knows when it writes.
  ghost predicate MayAdd(db: Db, call: Call, decision: Decision, newJob: JobId, newOccurrence: OccurrenceId) {
    && ValidDb(db) && ResolveIdentity(call.posting) == Some(call.key)
    && newJob !in db.jobs && newOccurrence !in db.occurrences
    && (forall o :: o in db.occurrences ==> !Matches(call.key, db.occurrences[o]))
    && (decision.AttachTo? ==> decision.job in db.jobs)
  }

  lemma NewRowFacts(call: Call, job: JobId)
    requires ResolveIdentity(call.posting) == Some(call.key)
    ensures var row := NewRow(call, job);
            && StoredForm(row) && OwnKey(row) == Some(call.key) && call.key.WellFormed() && Matches(call.key, row)
            && row.canonicalUrl == call.posting.canonicalUrl
            && row.job == job && row.firstSeen == row.lastSeen == call.observedAt
  {
    NewRowResolvesToItsKey(call, job);
    MatchesExactlyOwnKey(call.key, NewRow(call, job));
  }

  lemma GrownOccurrences(db: Db, home: JobId, jobRow: Job, o: OccurrenceId, row: Occurrence)
    requires ValidOccurrences(db) && StoredForm(row) && row.job == home
    requires row.firstSeen <= row.lastSeen <= jobRow.lastSeen
    requires home in db.jobs ==> db.jobs[home].lastSeen <= jobRow.lastSeen
    ensures ValidOccurrences(db.(jobs := db.jobs[home := jobRow], occurrences := db.occurrences[o := row]))
  {
    hide StoredForm;
  }

  lemma AddKeepsOccurrences(db: Db, call: Call, decision: Decision, newJob: JobId, newOccurrence: OccurrenceId)
    requires MayAdd(db, call, decision, newJob, newOccurrence)
    ensures var db' := WithNewRows(db, call, Home(decision, newJob), HomeRow(db, call, decision), newOccurrence);
            ValidOccurrences(db')
  {
    hide UniqueNaturalKeys, OneJobPerCanonicalUrl, ValidRaws, ValidJobs, ValidOccurrences, Matches, NewRow, StoredForm,
      ResolveIdentity, OwnKey;
    var home := Home(decision, newJob);
    NewRowFacts(call, home);
    GrownOccurrences(db, home, HomeRow(db, call, decision), newOccurrence, NewRow(call, home));
  }

  // A job's last sighting stays one of its occurrences' when a row seen then, or no later, joins it.
  lemma GrownJobs(db: Db, home: JobId, jobRow: Job, o: OccurrenceId, row: Occurrence)
    requires ValidJobs(db) && o !in db.occurrences && row.job == home && jobRow.firstSeen <= jobRow.lastSeen
    requires jobRow.lastSeen == row.lastSeen || (home in db.jobs && jobRow.lastSeen == db.jobs[home].lastSeen)
    ensures ValidJobs(db.(jobs := db.jobs[home := jobRow], occurrences := db.occurrences[o := row]))
  {
    var db' := db.(jobs := db.jobs[home := jobRow], occurrences := db.occurrences[o := row]);
    forall j | j in db'.jobs
      ensures db'.jobs[j].firstSeen <= db'.jobs[j].lastSeen
      ensures exists w :: w in db'.occurrences && db'.occurrences[w].job == j
                          && db'.occurrences[w].lastSeen == db'.jobs[j].lastSeen
    {
      if j == home && jobRow.lastSeen == row.lastSeen {
        assert db'.occurrences[o] == row;
      } else {
        var w :| w in db.occurrences && db.occurrences[w].job == j && db.occurrences[w].lastSeen == db.jobs[j].lastSeen;
        assert db'.occurrences[w] == db.occurrences[w];
      }
    }
  }

  lemma NewRowIsSeen(call: Call, job: JobId)
    ensures NewRow(call, job).job == job && NewRow(call, job).lastSeen == call.observedAt
  {
  }

  lemma AddKeepsJobs(db: Db, call: Call, decision: Decision, newJob: JobId, newOccurrence: OccurrenceId)
    requires MayAdd(db, call, decision, newJob, newOccurrence)
    ensures var db' := WithNewRows(db, call, Home(decision, newJob), HomeRow(db, call, decision), newOccurrence);
            ValidJobs(db')
  {
    hide UniqueNaturalKeys, OneJobPerCanonicalUrl, ValidRaws, ValidOccurrences, Matches, NewRow, ResolveIdentity;
    var home := Home(decision, newJob);
    NewRowIsSeen(call, home);
    var jobRow := HomeRow(db, call, decision);
    assert jobRow.firstSeen <= jobRow.lastSeen;
    hide ValidJobs;
    GrownJobs(db, home, jobRow, newOccurrence, NewRow(call, home));
  }

  // The new row's key is new, so natural keys stay unique.
  lemma AddKeepsKeysUnique(db: Db, call: Call, decision: Decision, newJob: JobId, newOccurrence: OccurrenceId)
    requires MayAdd(db, call, decision, newJob, newOccurrence)
    ensures UniqueNaturalKeys(WithNewRows(db, call, Home(decision, newJob), HomeRow(db, call, decision), newOccurrence))
  {
    hide OneJobPerCanonicalUrl, ValidRaws, ValidJobs, NewRow, StoredForm, ResolveIdentity, Matches, OwnKey, SameIdentity, HomeRow;
    var home := Home(decision, newJob);
    NewRowFacts(call, home);
    var row := NewRow(call, home);
    var db' := WithNewRows(db, call, home, HomeRow(db, call, decision), newOccurrence);
    forall o | o in db.occurrences
      ensures !SameOwnKey(db.occurrences[o], row) && !SameOwnKey(row, db.occurrences[o])
    {
      MatchesExactlyOwnKey(call.key, db.occurrences[o]);
      IdentitySymmetric(db.occurrences[o], row);
    }
    forall p, q | p in db'.occurrences && q in db'.occurrences && p != q
      ensures !SameOwnKey(db'.occurrences[p], db'.occurrences[q])
    {
      if p != newOccurrence && q != newOccurrence {
        assert !SameOwnKey(db.occurrences[p], db.occurrences[q]);
      }
    }
  }

  lemma IdentitySymmetric(row: Occurrence, row': Occurrence)
    ensures SameOwnKey(row, row') <==> SameOwnKey(row', row)
  {
  }

  /** The miss branch keeps every table invariant, when a canonical URL is only ever attached
      to the job already holding it. */
  lemma AddKeepsDb(db: Db, call: Call, decision: Decision, newJob: JobId, newOccurrence: OccurrenceId)
    requires MayAdd(db, call, decision, newJob, newOccurrence)
    requires call.rawId in db.raws && db.raws[call.rawId].status == Fetched
    requires call.posting.canonicalUrl.Some? ==>
      forall o :: o in db.occurrences && db.occurrences[o].canonicalUrl == Some(call.posting.canonicalUrl.value)
        ==> db.occurrences[o].job == Home(decision, newJob)
    ensures var jobLastSeen := if decision.AttachTo? then db.jobs[decision.job].lastSeen else 0;
            var db' := WriteNew(db, call, decision, jobLastSeen, newJob, newOccurrence);
            ValidDb(db') && Extends(db, db')
  {
    hide Matches, NewRow, StoredForm, ResolveIdentity, OwnKey, SameIdentity, UniqueNaturalKeys, ValidOccurrences,
      ValidJobs, Extends, OneJobPerCanonicalUrl;
    var home := Home(decision, newJob);
    AddKeepsOccurrences(db, call, decision, newJob, newOccurrence);
    AddKeepsJobs(db, call, decision, newJob, newOccurrence);
    AddKeepsKeysUnique(db, call, decision, newJob, newOccurrence);
    AddKeepsCanonicalUrls(db, call, decision, newJob, newOccurrence);
    var added := WithNewRows(db, call, home, HomeRow(db, call, decision), newOccurrence);
    var detail := if decision.Ambiguous? then Some(AmbiguousMatch(decision.candidates, newOccurrence)) else None;
    FinishKeepsRaws(added, call, newOccurrence, detail);
    var jobLastSeen := if decision.AttachTo? then db.jobs[decision.job].lastSeen else 0;
    assert WriteNew(db, call, decision, jobLastSeen, newJob, newOccurrence) == FinishRaw(added, call, newOccurrence, detail);
    FinishKeepsTheRest(added, call, newOccurrence, detail);
    AddExtends(db, call, decision, newJob, newOccurrence, detail);
  }

  lemma AddKeepsCanonicalUrls(db: Db, call: Call, decision: Decision, newJob: JobId, newOccurrence: OccurrenceId)
    requires MayAdd(db, call, decision, newJob, newOccurrence)
    requires call.posting.canonicalUrl.Some? ==>
      forall o :: o in db.occurrences && db.occurrences[o].canonicalUrl == Some(call.posting.canonicalUrl.value)
        ==> db.occurrences[o].job == Home(decision, newJob)
    ensures OneJobPerCanonicalUrl(WithNewRows(db, call, Home(decision, newJob), HomeRow(db, call, decision), newOccurrence))
  {
    hide Matches, NewRow, StoredForm, ResolveIdentity, OwnKey, SameIdentity, UniqueNaturalKeys, ValidOccurrences,
      ValidJobs, ValidRaws, HomeRow;
    NewRowFacts(call, Home(decision, newJob));
  }

  lemma AddExtends(db: Db, call: Call, decision: Decision, newJob: JobId, newOccurrence: OccurrenceId,
                   detail: Option<ConflictDetail>)
    requires MayAdd(db, call, decision, newJob, newOccurrence)
    requires call.rawId in db.raws && db.raws[call.rawId].status == Fetched
    ensures Extends(db, FinishRaw(WithNewRows(db, call, Home(decision, newJob), HomeRow(db, call, decision), newOccurrence),
                                  call, newOccurrence, detail))
  {
    hide Matches, NewRow, StoredForm, ResolveIdentity, UniqueNaturalKeys, ValidOccurrences, ValidJobs, OneJobPerCanonicalUrl;
  }

  lemma FinishKeepsTheRest(db: Db, call: Call, o: OccurrenceId, detail: Option<ConflictDetail>)
    requires call.rawId in db.raws
    ensures var db' := FinishRaw(db, call, o, detail);
            && (ValidOccurrences(db) ==> ValidOccurrences(db'))
            && (ValidJobs(db) ==> ValidJobs(db'))
            && (UniqueNaturalKeys(db) ==> UniqueNaturalKeys(db'))
            && (OneJobPerCanonicalUrl(db) ==> OneJobPerCanonicalUrl(db'))
  {
    hide StoredForm, SameOwnKey;
  }

  // ---------- Raw rows outside the posting transaction ----------

  lemma FetchedKeepsRaws(db: Db, raw: RawId, posting: Posting)
    requires ValidRaws(db) && raw !in db.raws
    ensures var db' := db.(raws := db.raws[raw := FetchedRow(posting)]);
            ValidRaws(db') && Extends(db, db')
  {
    hide FetchedRow;
    assert FetchedRow(posting).status == Fetched && FetchedRow(posting).occurrence.None? by {
      FetchedRowIsFetched(posting);
    }
  }

  lemma FetchedRowIsFetched(posting: Posting)
    ensures FetchedRow(posting).status == Fetched && FetchedRow(posting).occurrence.None?
  {
  }

  lemma MarkKeepsRaws(db: Db, raw: RawId)
    requires ValidRaws(db) && raw in db.raws
    ensures ValidRaws(MarkedParseError(db, raw)) && Extends(db, MarkedParseError(db, raw))
  {
    var db' := MarkedParseError(db, raw);
    forall r | r in db'.raws && db'.raws[r].status == IdentityConflict
      ensures exists i :: 0 <= i < |db'.conflicts| && db'.conflicts[i].raw == r
    {
      assert db.raws[r].status == IdentityConflict;
    }
  }

  lemma SameTables(db: Db, db': Db)
    requires db' == db.(raws := db'.raws)
    ensures ValidOccurrences(db) ==> ValidOccurrences(db')
    ensures ValidJobs(db) ==> ValidJobs(db')
    ensures UniqueNaturalKeys(db) ==> UniqueNaturalKeys(db')
    ensures OneJobPerCanonicalUrl(db) ==> OneJobPerCanonicalUrl(db')
  {
    hide StoredForm, SameOwnKey;
  }
}
