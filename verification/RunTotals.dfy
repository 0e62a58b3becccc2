/** What a run's counters count, in rows of the tables, and what its failures list, turn by turn. */
module RunTotals {
  import opened Options
  import opened Ingestion
  import opened Sums
  import opened ProviderExecution
  import opened CollectionRuns

  // ---------- Counters and tables ----------

  /** The run's counters have risen by exactly what was stored: discovered by the new raw rows, inserted by the
      new jobs, updated by what remains of the new raw rows that are no parse errors. */
  ghost predicate RaisedAsStored(before: Run, run: Run, db: Db, db': Db) {
    && run.discovered - before.discovered == |db'.raws| - |db.raws|
    && run.inserted - before.inserted == |db'.jobs| - |db.jobs|
    && run.updated - before.updated
       == (run.discovered - before.discovered) - (run.inserted - before.inserted) - |NewUnparsed(db, db')|
    && (forall r :: r in db.raws ==> r in db'.raws && db'.raws[r] == db.raws[r])
  }

  /** They count no job that is not there, miss at most one, and count every raw row. */
  ghost predicate RaisedWithin(before: Run, run: Run, db: Db, db': Db) {
    && run.inserted - before.inserted <= |db'.jobs| - |db.jobs| <= run.inserted - before.inserted + 1
    && |db'.raws| - |db.raws| <= run.discovered - before.discovered
  }

  predicate SameCounters(a: Run, b: Run) {
    a.discovered == b.discovered && a.inserted == b.inserted && a.updated == b.updated
  }

  lemma NothingRaised(before: Run, run: Run, db: Db)
    requires SameCounters(before, run)
    ensures RaisedAsStored(before, run, db, db)
  {
    assert NewUnparsed(db, db) == {};
  }

  lemma RaisedTwice(a: Run, b: Run, c: Run, x: Db, y: Db, z: Db)
    requires RaisedAsStored(a, b, x, y) && RaisedAsStored(b, c, y, z)
    ensures RaisedAsStored(a, c, x, z)
  {
    var first, second := NewUnparsed(x, y), NewUnparsed(y, z);
    assert first !! second;
    assert NewUnparsed(x, z) == first + second;
    assert |first + second| == |first| + |second|;
  }

  lemma ExactIsWithin(before: Run, run: Run, run': Run, db: Db, db': Db)
    requires RaisedAsStored(before, run, db, db') && SameCounters(run, run')
    ensures RaisedWithin(before, run', db, db')
  {
  }

  lemma RaisedThenWithin(a: Run, b: Run, c: Run, x: Db, y: Db, z: Db)
    requires RaisedAsStored(a, b, x, y) && RaisedWithin(b, c, y, z)
    ensures RaisedWithin(a, c, x, z)
  {
  }

  // One completed execution, once its rows are finalized.
  lemma FinalizedAsStored(before: Run, run: Run, attempts: Attempts, ids: map<string, AttemptId>, state: ProviderExecutionState,
                          result: DiscoveryResult, sources: seq<string>, db: Db, db': Db, raws: seq<RawId>, fates: seq<Fate>)
    requires RowsCarry(before, run, attempts, ids, state)
    requires CompletedNormally(state, result, sources, db, db', raws, fates)
    ensures RaisedAsStored(before, run, db, db')
  {
    hide CompletedNormally, Sum, NewUnparsed;
    CompletionIsCounted(state, result, sources, db, db', raws, fates);
  }

  // Two runs whose counters are the sums over the same rows have the same counters.
  lemma RollupsAgree(a: Run, b: Run, attempts: Attempts)
    requires RollupExact(a, attempts) && RollupExact(b, attempts)
    ensures SameCounters(a, b)
  {
    hide Sum, Column;
    assert OfRun(a, DiscoveredJobs) == OfRun(b, DiscoveredJobs) && OfRun(a, InsertedJobs) == OfRun(b, InsertedJobs);
    assert OfRun(a, UpdatedJobs) == OfRun(b, UpdatedJobs);
  }

  // ---------- Failing an execution's rows ----------

  // What a broken-off execution left behind, against what its telemetry counts.
  ghost predicate ToldWithin(db: Db, db': Db, ids: map<string, AttemptId>, t: Telemetry) {
    && (forall c: Counter :: PerSource(t, c).Keys == ids.Keys)
    && StoredWithin(db, db', t.inserted, t.discovered)
  }

  // The rows failed with the telemetry raise the sums by what it counts.
  lemma FailedWithin(before: Run, was: Attempts, now: Attempts, provider: string, ids: map<string, AttemptId>, t: Telemetry,
                     run: Run, db: Db, db': Db)
    requires RollupExact(before, was) && Begun(was, now, provider, ids) && Running(now) == ids.Values
    requires RollupExact(run, Aborted(now, Running(now), t)) && ToldWithin(db, db', ids, t)
    ensures RaisedWithin(before, run, db, db')
  {
    hide Sum, Column, Aborted, Begun, Running;
    forall c: Counter
      ensures OfRun(run, c) == OfRun(before, c) + Sum(PerSource(t, c))
    {
      AbortedMovesAll(was, now, provider, ids, t, c);
    }
    assert OfRun(run, DiscoveredJobs) == OfRun(before, DiscoveredJobs) + Sum(PerSource(t, DiscoveredJobs));
    assert OfRun(run, InsertedJobs) == OfRun(before, InsertedJobs) + Sum(PerSource(t, InsertedJobs));
  }

  // Failed without telemetry, they raise nothing.
  lemma FailedUntold(before: Run, was: Attempts, now: Attempts, provider: string, ids: map<string, AttemptId>, run: Run, db: Db)
    requires RollupExact(before, was) && Begun(was, now, provider, ids) && Running(now) == ids.Values
    requires RollupExact(run, Aborted(now, Running(now), NO_TELEMETRY))
    ensures RaisedWithin(before, run, db, db)
  {
    hide Sum, Column, Aborted, Begun, Running;
    forall c: Counter
      ensures OfRun(run, c) == OfRun(before, c)
    {
      AbortedMovesAll(was, now, provider, ids, NO_TELEMETRY, c);
    }
    assert OfRun(run, DiscoveredJobs) == OfRun(before, DiscoveredJobs);
    assert OfRun(run, InsertedJobs) == OfRun(before, InsertedJobs);
  }
}
