/** One collection run over several providers, in sequence, with a failure or cancellation possible
    around every transaction, including between a commit and the caller learning of it, and with an
    abort handler that can itself fail. */
module Orchestrator {
  import opened Options
  import opened CoveredText
  import opened NaturalKeys
  import opened Ingestion
  import opened TableWrites
  import opened PostingEffects
  import opened Persistence
  import opened Sums
  import opened ProviderExecution
  import opened CollectionRuns
  import opened RunTotals
  import opened RunScripts

  // ---------- Reading the flags off the tables ----------

  // The flags and the raw rows of a normally completed execution tell the same story.
  ghost predicate FlagsTell(before: Db, after: Db, hadParseError: bool, hadConflict: bool) {
    && (hadParseError <==> NewParseErrors(before, after))
    && (hadConflict <==> |after.conflicts| > |before.conflicts|) && |after.conflicts| >= |before.conflicts|
    && (forall r :: r in before.raws ==> r in after.raws && after.raws[r] == before.raws[r])
  }

  lemma FlagsCompose(a: Db, b: Db, c: Db, parse: bool, conflict: bool, parse': bool, conflict': bool)
    requires FlagsTell(a, b, parse, conflict) && FlagsTell(b, c, parse', conflict')
    ensures FlagsTell(a, c, parse || parse', conflict || conflict')
  {
    if NewParseErrors(a, b) {
      var r :| r in b.raws && r !in a.raws && b.raws[r].status == ParseError;
      assert r in c.raws && c.raws[r].status == ParseError;
    }
    if NewParseErrors(b, c) {
      var r :| r in c.raws && r !in b.raws && c.raws[r].status == ParseError;
      assert r !in a.raws;
    }
    if NewParseErrors(a, c) {
      var r :| r in c.raws && r !in a.raws && c.raws[r].status == ParseError;
      assert r in b.raws ==> b.raws[r].status == ParseError;
    }
  }

  lemma {:induction false} SomeUnresolved(fates: seq<Fate>)
    ensures Total(fates, ParseErrors) > 0 <==> exists i :: 0 <= i < |fates| && fates[i].Unresolved?
  {
    if fates == [] {
    } else {
      var n := |fates| - 1;
      SomeUnresolved(fates[..n]);
      assert forall i :: 0 <= i < n ==> fates[..n][i] == fates[i];
    }
  }

  lemma StoredParseErrors(before: Db, after: Db, jobs: seq<Posting>, raws: seq<RawId>, fates: seq<Fate>)
    requires Storing(before, after, jobs, raws, fates) && |fates| == |raws|
    ensures FlagsTell(before, after, Total(fates, ParseErrors) > 0, Conflicts(fates) > 0)
  {
    hide Total, Conflicts, FetchedRow;
    SomeUnresolved(fates);
    if NewParseErrors(before, after) {
      var r :| r in after.raws && r !in before.raws && after.raws[r].status == ParseError;
      ListedKeys(before.raws, after.raws, raws, r);
      var i :| 0 <= i < |raws| && raws[i] == r;
      assert fates[i].Unresolved?;
    }
    if i :| 0 <= i < |fates| && fates[i].Unresolved? {
      assert after.raws[raws[i]].status == ParseError;
    }
  }

  // ---------- One provider's turn ----------

  lemma StatsCover(state: ProviderExecutionState, result: DiscoveryResult, sources: seq<string>)
    requires state.Recorded(result) && SameSources(result, sources)
    ensures forall s :: s in sources ==> s in state.stats
  {
    hide Selects, Reports;
    forall s | s in sources
      ensures s in state.stats
    {
      assert result.HasSource(s);
    }
  }

  lemma CountersCover(state: ProviderExecutionState, ids: map<string, AttemptId>, sources: seq<string>)
    requires state.Covers(sources) && forall s :: s in ids <==> s in sources
    ensures forall c: Counter :: PerSource(TelemetryOf(state), c).Keys == ids.Keys
  {
  }

  lemma BegunInFlight(was: Attempts, now: Attempts, provider: string, ids: map<string, AttemptId>, t: Telemetry)
    requires Begun(was, now, provider, ids) && NoneRunning(was)
    requires (forall c: Counter :: PerSource(t, c).Keys == ids.Keys) && forall s :: s in ids ==> s in t.stats
    ensures InFlight(now, ids, t)
  {
    hide Column, Sum, PerSource;
  }

  // Once finalized, the rows begun are no longer running; nothing else was.
  lemma FinalizedAtRest(was: Attempts, begun: Attempts, provider: string, ids: map<string, AttemptId>, t: Telemetry)
    requires Begun(was, begun, provider, ids) && NoneRunning(was) && InFlight(begun, ids, t)
    ensures NoneRunning(Finalized(begun, ids, ids.Keys, t))
  {
    hide Column, Sum;
    var after := Finalized(begun, ids, ids.Keys, t);
    forall a | a in after
      ensures after[a].status != AttemptRunning
    {
      assert a in was || Mine(a, begun[a], ids);
    }
  }

  lemma StatAt(result: DiscoveryResult, provider: string, sources: seq<string>, source: string) returns (i: nat)
    requires SelfConsistent(result, provider, sources) && source in sources
    ensures i < |result.stats| && result.stats[i].source == source
    ensures result.stats[i].jobsFound == Count(result.jobs, source)
  {
    hide Count;
    assert result.HasSource(source);
    var k :| 0 <= k < |result.stats| && result.stats[k].source == source;
    i := k;
  }

  lemma FinalRowTells(t: Telemetry, provider: string, script: Script, source: string)
    requires TellsAll(t, provider, script) && source in script.plan.sources && source in t.stats
    ensures FinalizedAs(FinalRow(NewAttempt(provider, source), t), provider, script)
  {
    hide SelfConsistent, Count, Reports, SelectedAt, Identified, CanonicalizeNullableText;
    var result := script.discovery.value;
    var row := FinalRow(NewAttempt(provider, source), t);
    var i := StatAt(result, provider, script.plan.sources, source);
    assert SaysStat(row, result, i) && SaysStatus(row, result.stats[i]);
    if source in t.selected {
      var e := t.selected[source];
      assert SelectedAt(result.errors, source, e);
      SelectedIsTheirs(result.errors, source, e);
      assert Get(t.selected, source) == Some(e);
      assert row.errorCategory == Some(e.category) && row.errorMessage == CanonicalizeNullableText(e.detail);
    } else {
      assert forall j :: 0 <= j < |result.errors| ==> result.errors[j].source != source;
      assert Get(t.selected, source) == None;
    }
  }

  lemma SelectedIsTheirs(errors: seq<ProviderError>, source: string, error: ProviderError)
    requires SelectedAt(errors, source, error)
    ensures exists i :: 0 <= i < |errors| && errors[i].source == source
  {
  }

  lemma AbortedRowTells(t: Telemetry, provider: string, script: Script, source: string, asked: bool)
    requires script.plan.Planned? && source in script.plan.sources && (asked ==> Tells(t, provider, script))
    ensures AbortedAs(AbortedRow(NewAttempt(provider, source), t), provider, script, asked)
  {
    hide SelfConsistent, Count, Reports, Selects, Identified;
    if asked && Answers(provider, script) {
      var i := StatAt(script.discovery.value, provider, script.plan.sources, source);
      assert SaysStat(AbortedRow(NewAttempt(provider, source), t), script.discovery.value, i);
    }
  }

  // A result without errors or incomplete sources finalizes its rows as completed.
  lemma FinalizedCompleted(row: Attempt, provider: string, script: Script)
    requires FinalizedAs(row, provider, script) && !Degraded(script)
    ensures row.status == AttemptCompleted && row.errorCategory.None? && row.errorMessage.None?
  {
    hide SelfConsistent, SelectedAt, Identified;
    var result := script.discovery.value;
    var i: nat :| SaysStat(row, result, i) && SaysStatus(row, result.stats[i]);
    assert result.stats[i] in result.stats && result.errors == [];
  }

  // A finalized turn's rows: nothing else changed, and each says what the result says.
  lemma FinalizedTurnRows(was: Attempts, begun: Attempts, provider: string, script: Script, ids: map<string, AttemptId>, t: Telemetry)
    requires TellsAll(t, provider, script) && InFlight(begun, ids, t)
    requires BegunRows(was, begun, provider, script.plan.sources, ids)
    ensures TurnRows(was, Finalized(begun, ids, ids.Keys, t), provider, script)
  {
    hide Column, Sum, FinalRow, TellsAll, Accepted, FinalizedAs;
    assert script.plan.Planned? by {
      OnlyPlannedTells(t, provider, script);
    }
    var after := Finalized(begun, ids, ids.Keys, t);
    forall a | a in after && a !in was
      ensures FinalizedAs(after[a], provider, script)
    {
      assert Mine(a, begun[a], ids);
      FinalRowTells(t, provider, script, begun[a].source);
    }
    forall source | source in script.plan.sources
      ensures HasRow(after, provider, source)
    {
      FinalizedNames(begun, ids, t, ids[source]);
    }
  }

  lemma OnlyPlannedTells(t: Telemetry, provider: string, script: Script)
    requires TellsAll(t, provider, script)
    ensures script.plan.Planned? && Answers(provider, script) && Tells(t, provider, script)
  {
  }

  lemma FinalizedNames(begun: Attempts, ids: map<string, AttemptId>, t: Telemetry, a: AttemptId)
    requires a in begun
    ensures var row := Finalized(begun, ids, ids.Keys, t)[a]; row.provider == begun[a].provider && row.source == begun[a].source
  {
  }

  lemma ReportableTells(state: ProviderExecutionState, provider: string, script: Script, fates: seq<Fate>)
    requires script.plan.Planned? && Reportable(state, provider, script.discovery, script.plan.sources, fates)
    ensures Tells(TelemetryOf(state), provider, script)
  {
    hide SelfConsistent, Reports, Selects, Count, Identified, Tally, Total, Conflicts, ResolvedAs, Sum;
    if Accepted(script.discovery, provider, script.plan.sources) {
      var jobs := script.discovery.value.jobs;
      forall source | source in script.plan.sources
        ensures state.inserted[source] + state.updated[source] <= |Identified(jobs, source)|
      {
        StoredAreIdentified(jobs, fates, source);
        IdentifiedGrows(jobs, |fates|, source);
      }
    }
  }

  lemma CompletionTellsAll(state: ProviderExecutionState, provider: string, script: Script, before: Db, after: Db, raws: seq<RawId>,
                           fates: seq<Fate>)
    requires Answers(provider, script) && Tells(TelemetryOf(state), provider, script)
    requires CompletedNormally(state, script.discovery.value, script.plan.sources, before, after, raws, fates)
    ensures TellsAll(TelemetryOf(state), provider, script)
  {
    hide SelfConsistent, Reports, Selects, Count, Identified, Tally, Total, Conflicts, ResolvedAs, Sum, Storing, Tells, AllDiscovered;
    var jobs := script.discovery.value.jobs;
    forall source | source in script.plan.sources
      ensures StoredFor(TelemetryOf(state), source) == |Identified(jobs, source)|
    {
      StoredAreIdentified(jobs, fates, source);
      assert jobs[..|fates|] == jobs;
    }
  }

  method PrepareState(sources: seq<string>) returns (state: ProviderExecutionState)
    ensures fresh(state) && state.Blank(sources)
  {
    state := new ProviderExecutionState();
    state.SetDefaults(sources);
    forall s
      ensures s in Defaulted(map[], sources) <==> s in sources
      ensures CountAt(Defaulted(map[], sources), s) == 0
    {
      DefaultedAt(map[], sources, s);
    }
  }

  // Where a turn with a query stands when it ends early, before or after its rows were begun.
  lemma EndedEarly(before: Run, was: Attempts, run: Run, now: Attempts, provider: string, script: Script,
                   rows: map<string, AttemptId>, ids: Option<map<string, AttemptId>>, t: Option<Telemetry>) returns (stage: Stage)
    requires script.plan.Planned? && before.status == RunRunning
    requires (run == before && now == was) || BegunBy(before, was, run, now, provider, script.plan.sources, rows)
    requires ids.Some? ==> ids.value == rows && t.Some? && Tells(t.value, provider, script)
    requires ids.Some? ==> BegunBy(before, was, run, now, provider, script.plan.sources, rows)
    ensures StoppedAt(stage, before, was, run, now, provider, script, ids, t) && (ids.Some? ==> stage.InTurn?) && !stage.Finished?
  {
    hide Begun, Tells;
    if BegunBy(before, was, run, now, provider, script.plan.sources, rows) {
      assert BegunRows(was, now, provider, script.plan.sources, rows);
      stage := InTurn;
    } else {
      stage := Untouched;
    }
  }

  // A finalized turn is complete, and at rest again.
  lemma FinalizedTurn(before: Run, was: Attempts, begun: Run, rows: Attempts, run: Run, now: Attempts,
                      provider: string, script: Script, ids: map<string, AttemptId>, t: Telemetry)
    requires TellsAll(t, provider, script)
    requires before.status == RunRunning && RollupExact(before, was) && NoneRunning(was)
    requires BegunBy(before, was, begun, rows, provider, script.plan.sources, ids) && InFlight(rows, ids, t)
    requires FinalizedBy(begun, rows, run, now, ids, t)
    ensures run.status == RunRunning && RollupExact(run, now) && NoneRunning(now)
    ensures TurnDone(before, run, provider, script) && TurnRows(was, now, provider, script)
  {
    OnlyPlannedTells(t, provider, script);
    hide Column, Sum, InFlight, Finalized, NoneRunning, Reports, Accepted, TurnRows, TellsAll;
    FinalizedAtRest(was, rows, provider, ids, t);
    FinalizedTurnRows(was, rows, provider, script, ids, t);
    forall c: Counter
      ensures OfRun(run, c) == Sum(Column(now, c))
    {
      assert OfRun(before, c) == OfRun(begun, c) == Sum(Column(was, c)) == Sum(Column(rows, c));
    }
  }

  lemma CompletionTells(state: ProviderExecutionState, result: DiscoveryResult, sources: seq<string>,
                        before: Db, after: Db, raws: seq<nat>, fates: seq<Fate>)
    requires CompletedNormally(state, result, sources, before, after, raws, fates)
    ensures state.Covers(sources) && state.Recorded(result) && SameSources(result, sources)
    ensures FlagsTell(before, after, state.hadParseError, state.hadConflict)
  {
    hide Counted, AllDiscovered, Storing, Reports, Selects, SameSources, FlagsTell;
    StoredParseErrors(before, after, result.jobs, raws, fates);
    AccountsCover(state, result.jobs, fates, sources);
  }

  method RunQuery(store: RunStore, db: Database, discovery: Discovery, hash: HashFunction, observedAt: Time, provider: string, script: Script)
    returns (ok: bool, ids: Option<map<string, AttemptId>>, state: ProviderExecutionState?, ghost stage: Stage)
    requires AtRest(store) && ValidDb(db.Contents()) && script.plan.Planned?
    requires script.discovery.Some? ==> script.discovery.value.Consistent()
    modifies store, db, discovery
    ensures store.Valid() && old(store.versions) <= store.versions && ValidDb(db.Contents())
    ensures state != null ==> fresh(state)
    ensures ok ==> AtRest(store) && TurnDone(old(store.run), store.run, provider, script)
    ensures ok ==> TurnRows(old(store.attempts), store.attempts, provider, script)
    ensures ok ==> state != null && script.discovery.Some?
    ensures ok ==> (state.possiblyIncomplete <==> script.discovery.value.PossiblyIncomplete())
    ensures ok ==> FlagsTell(old(db.Contents()), db.Contents(), state.hadParseError, state.hadConflict)
    ensures !ok ==> StoppedAt(stage, old(store.run), old(store.attempts), store.run, store.attempts, provider, script,
                              ids, TelemetryIn(state))
    ensures discovery.asked == old(discovery.asked) + (if ok || AskedIn(stage, ids) then Attempting(provider, script) else [])
    ensures ok ==> RaisedAsStored(old(store.run), store.run, old(db.Contents()), db.Contents())
    ensures ok ==> Answers(provider, script)
    ensures ok ==> ids.Some? && RowsCarry(old(store.run), store.run, store.attempts, ids.value, state)
    ensures SightedAt(old(db.Contents()), db.Contents(), observedAt)
    ensures !ok ==> StoredBy(stage, old(store.run), store.run, store.attempts, old(db.Contents()), db.Contents(), ids, TelemetryIn(state))
  {
    hide ValidDb, Extends, CompletedNormally, FlagsTell, BegunBy, FinalizedBy, InFlight, NoneRunning, RollupExact,
      StoppedAt, TurnDone, TurnRows, Tells, Reports, SameSources, History, Finalized, Reportable, SelfConsistent, TellsAll,
      RowsCarry, StoredWithin, RaisedAsStored, Identified, SightedAt, FetchedThenStored;
    SameSightings(db.Contents(), db.Contents(), observedAt);
    ok, ids, state, stage := false, None, null, Untouched;
    var sources := script.plan.sources;
    ghost var before, was, start := store.run, store.attempts, db.Contents();
    ghost var rows;
    ids, rows := store.BeginProviderAttempt(provider, sources);
    if ids.None? {
      stage := EndedEarly(before, was, store.run, store.attempts, provider, script, rows, None, None);
      return;
    }
    ghost var begun, flying := store.run, store.attempts;
    var mine := PrepareState(sources);
    state := mine;
    ghost var raws, fates;
    var executed;
    var discovered := discovery.Discover(provider, script);
    executed, raws, fates := ExecuteProviderQuery(db, hash, provider, sources, discovered, observedAt, mine);
    ReportableTells(mine, provider, script, fates);
    stage := EndedEarly(before, was, begun, flying, provider, script, rows, ids, Some(TelemetryOf(mine)));
    BegunFacts(before, was, begun, flying, provider, sources, rows);
    ReportableCovers(mine, provider, discovered, sources, fates);
    CountersCover(mine, rows, sources);
    if !executed {
      return;
    }
    var result := script.discovery.value;
    CompletionTells(mine, result, sources, start, db.Contents(), raws, fates);
    CompletionTellsAll(mine, provider, script, start, db.Contents(), raws, fates);
    StatsCover(mine, result, sources);
    BegunInFlight(was, flying, provider, rows, TelemetryOf(mine));
    ok := store.FinalizeProviderSuccess(ids.value, mine);
    if FinalizedBy(begun, flying, store.run, store.attempts, rows, TelemetryOf(mine)) {
      FinalizedTurn(before, was, begun, flying, store.run, store.attempts, provider, script, rows, TelemetryOf(mine));
      stage := FinishedTurn(before, was, store.run, store.attempts, provider, script, ids, Some(TelemetryOf(mine)));
      FinalizedCarry(begun, flying, store.run, store.attempts, rows, mine);
      FinalizedAsStored(begun, store.run, store.attempts, rows, mine, result, sources, start, db.Contents(), raws, fates);
      BegunCountsNothing(before, was, begun, flying, provider, sources, rows);
      CarriedFromTheStart(before, begun, store.run, store.attempts, rows, mine);
      RaisedTwice(before, begun, store.run, start, start, db.Contents());
    }
  }

  lemma BegunCountsNothing(before: Run, was: Attempts, run: Run, now: Attempts, provider: string, sources: seq<string>,
                           ids: map<string, AttemptId>)
    requires BegunBy(before, was, run, now, provider, sources, ids)
    ensures SameCounters(before, run) && before.failures == run.failures && forall db :: RaisedAsStored(before, run, db, db)
  {
    hide Begun, RaisedAsStored;
    forall db
      ensures RaisedAsStored(before, run, db, db)
    {
      NothingRaised(before, run, db);
    }
  }

  lemma CarriedFromTheStart(before: Run, begun: Run, run: Run, attempts: Attempts, ids: map<string, AttemptId>, state: ProviderExecutionState)
    requires RowsCarry(begun, run, attempts, ids, state) && SameCounters(before, begun) && before.failures == begun.failures
    ensures RowsCarry(before, run, attempts, ids, state)
  {
  }

  lemma ReportableCovers(state: ProviderExecutionState, provider: string, discovery: Option<DiscoveryResult>, sources: seq<string>,
                         fates: seq<Fate>)
    requires Reportable(state, provider, discovery, sources, fates)
    ensures state.Covers(sources)
  {
    hide Accepted;
  }

  lemma BegunFacts(before: Run, was: Attempts, run: Run, now: Attempts, provider: string, sources: seq<string>,
                   ids: map<string, AttemptId>)
    requires BegunBy(before, was, run, now, provider, sources, ids)
    ensures Begun(was, now, provider, ids) && forall s :: s in ids <==> s in sources
  {
    hide Begun;
  }

  lemma FinishedTurn(before: Run, was: Attempts, run: Run, now: Attempts, provider: string, script: Script,
                     ids: Option<map<string, AttemptId>>, t: Option<Telemetry>) returns (stage: Stage)
    requires TurnDone(before, run, provider, script) && TurnRows(was, now, provider, script) && run.status == RunRunning
    ensures StoppedAt(stage, before, was, run, now, provider, script, ids, t) && AskedIn(stage, ids)
  {
    stage := Finished;
  }

  // What a whole turn found, as the run accumulates it.
  datatype Findings = Findings(planningFailure: bool, sourceIssue: bool, parseError: bool, conflict: bool)

  function Both(a: Findings, b: Findings): Findings {
    Findings(a.planningFailure || b.planningFailure, a.sourceIssue || b.sourceIssue,
             a.parseError || b.parseError, a.conflict || b.conflict)
  }

  const NO_FINDINGS := Findings(false, false, false, false)

  lemma Unchanged(db: Db)
    ensures FlagsTell(db, db, false, false)
  {
  }

  // A planning failure's turn: nothing was begun.
  lemma PlanningTurn(before: Run, run: Run, attempts: Attempts, provider: string, script: Script, detail: string) returns (stage: Stage)
    requires script.plan == Unregistered(detail) || script.plan == Unplannable(detail)
    requires before.status == RunRunning && RollupExact(before, attempts) && NoneRunning(attempts)
    requires run == before || run == before.(failures := before.failures + [PlanningFailure(provider, detail)])
    ensures StoppedAt(stage, before, attempts, run, attempts, provider, script, None, None)
    ensures RollupExact(run, attempts) && run.status == RunRunning
    ensures run.failures == before.failures + [PlanningFailure(provider, detail)] ==>
      TurnDone(before, run, provider, script) && TurnRows(attempts, attempts, provider, script)
  {
    hide Column, Sum, NoneRunning;
    forall c: Counter
      ensures OfRun(run, c) == Sum(Column(attempts, c))
    {
      assert OfRun(run, c) == OfRun(before, c);
    }
    stage := if run == before then Untouched else Finished;
  }

  // The turn of a provider with nothing to do, or whose registry entry is broken.
  lemma IdleTurn(run: Run, attempts: Attempts, provider: string, script: Script)
    requires (script.plan.NothingSelected? || script.plan.RegistryFault?) && run.status == RunRunning
    ensures TurnDone(run, run, provider, script) && TurnRows(attempts, attempts, provider, script)
    ensures StoppedAt(Untouched, run, attempts, run, attempts, provider, script, None, None)
  {
  }

  method RunTurn(store: RunStore, db: Database, discovery: Discovery, hash: HashFunction, observedAt: Time, provider: string, script: Script)
    returns (ok: bool, found: Findings, ids: Option<map<string, AttemptId>>, state: ProviderExecutionState?, ghost stage: Stage)
    requires AtRest(store) && ValidDb(db.Contents())
    requires script.discovery.Some? ==> script.discovery.value.Consistent()
    modifies store, db, discovery
    ensures store.Valid() && old(store.versions) <= store.versions && ValidDb(db.Contents())
    ensures state != null ==> fresh(state)
    ensures ok ==> AtRest(store) && TurnDone(old(store.run), store.run, provider, script)
    ensures ok ==> TurnRows(old(store.attempts), store.attempts, provider, script)
    ensures ok ==> (found.planningFailure || found.sourceIssue <==> Degraded(script))
    ensures ok ==> FlagsTell(old(db.Contents()), db.Contents(), found.parseError, found.conflict)
    ensures !ok ==> StoppedAt(stage, old(store.run), old(store.attempts), store.run, store.attempts, provider, script,
                              ids, TelemetryIn(state))
    ensures discovery.asked == old(discovery.asked) + (if ok || AskedIn(stage, ids) then Attempting(provider, script) else [])
    ensures ok ==> RaisedAsStored(old(store.run), store.run, old(db.Contents()), db.Contents())
    ensures !ok ==> StoredBy(stage, old(store.run), store.run, store.attempts, old(db.Contents()), db.Contents(), ids, TelemetryIn(state))
    ensures SightedAt(old(db.Contents()), db.Contents(), observedAt)
    ensures ok && script.plan.Planned? ==> Answers(provider, script)
  {
    hide ValidDb, FlagsTell, StoppedAt, TurnDone, TurnRows, RollupExact, NoneRunning, History, RaisedAsStored, ToldWithin, SightedAt,
      Accepted;
    SameSightings(db.Contents(), db.Contents(), observedAt);
    ok, found, ids, state, stage := false, NO_FINDINGS, None, null, Untouched;
    Unchanged(db.Contents());
    NothingRaised(store.run, store.run, db.Contents());
    match script.plan {
      case Unregistered(detail) =>
        ok := store.AppendPlanningFailure(provider, detail);
        stage := PlanningTurn(old(store.run), store.run, store.attempts, provider, script, detail);
        NothingRaised(old(store.run), store.run, db.Contents());
        found := Findings(true, false, false, false);
      case RegistryFault =>
        IdleTurn(store.run, store.attempts, provider, script);
      case Unplannable(detail) =>
        ok := store.AppendPlanningFailure(provider, detail);
        stage := PlanningTurn(old(store.run), store.run, store.attempts, provider, script, detail);
        NothingRaised(old(store.run), store.run, db.Contents());
        found := Findings(true, false, false, false);
      case NothingSelected =>
        IdleTurn(store.run, store.attempts, provider, script);
        ok := true;
      case Planned(_) =>
        ok, ids, state, stage := RunQuery(store, db, discovery, hash, observedAt, provider, script);
        if ok {
          found := Findings(false, state.possiblyIncomplete, state.hadParseError, state.hadConflict);
        }
    }
  }

  // ---------- The abort handler ----------

  lemma AllAborted(attempts: Attempts, t: Telemetry)
    ensures NoneRunning(Aborted(attempts, Running(attempts), t))
  {
    hide PerSource;
  }

  // What the handler may take from the in-memory state: all of it when its ids are exactly the rows
  // still running, nothing otherwise.
  function Trusted(ids: Option<map<string, AttemptId>>, state: ProviderExecutionState?, running: set<AttemptId>): Telemetry
    reads state
  {
    if ids.Some? && ids.value.Values == running then TelemetryIfAny(state) else NO_TELEMETRY
  }

  // Struck before its first commit or with nothing to fail, the handler changes no row and reports nothing;
  // otherwise it has failed exactly the running rows and reported what it may trust, once.
  ghost predicate HandlerDid(stopped: Run, now: Attempts, run: Run, attempts: Attempts, t: Telemetry, handled: bool) {
    && run.providersAttempted == stopped.providersAttempted
    && ((run.failures == stopped.failures && attempts == now && (handled ==> Running(now) == {}))
        || (Running(now) != {} && run.failures == stopped.failures + t.failures
            && attempts == Aborted(now, Running(now), t)))
  }

  /** Rediscovers what is in flight from the attempt rows, fails it, and recomputes the rollup.
      The state contributes only when its ids are exactly the rows found, and then wholly, unless
      the handler itself is struck. */
  method HandleAbort(store: RunStore, ids: Option<map<string, AttemptId>>, state: ProviderExecutionState?) returns (handled: bool)
    requires store.Valid() && Settled(store.run, store.attempts)
    modifies store
    ensures store.Valid() && old(store.versions) <= store.versions
    ensures Settled(store.run, store.attempts) && (handled ==> store.run.status == RunFailed)
    ensures HandlerDid(old(store.run), old(store.attempts), store.run, store.attempts,
                       Trusted(ids, state, Running(old(store.attempts))), handled)
    ensures handled && ids.Some? && state != null && ids.value.Values == Running(old(store.attempts)) != {} ==>
      && AbortedCarry(old(store.attempts), store.attempts, Running(old(store.attempts)), state)
      && store.run.failures == old(store.run.failures) + state.failures
  {
    hide RollupExact, History, Aborted, AbortedCarry;
    var running := store.FetchRunningAttempts();
    if running.None? {
      return false;
    }
    RunningOrNot(store.attempts);
    if running.value != {} {
      var matching := if ids.Some? && ids.value.Values == running.value then state else null;
      AllAborted(store.attempts, TelemetryIfAny(matching));
      var finalized := store.FinalizeRunningAttemptsAborted(running.value, matching);
      if !finalized {
        return false;
      }
    }
    handled := store.RecomputeAndFail();
  }

  lemma RunningOrNot(attempts: Attempts)
    ensures NoneRunning(attempts) <==> Running(attempts) == {}
  {
    if a :| a in attempts && attempts[a].status == AttemptRunning {
      assert a in Running(attempts);
    }
  }

  // ---------- The whole run ----------

  /** Reported are exactly the failures of the first `k` providers; attempted, those of the first `m`.
      At most one provider is attempted and not yet reported. */
  ghost predicate Reported(run: Run, providers: seq<string>, scripts: Scripts, k: nat, m: nat) {
    && k <= m <= |providers| && m <= k + 1
    && run.failures == Expected(providers[..k], scripts)
    && run.providersAttempted == ExpectedAttempts(providers[..m], scripts)
  }

  lemma ExpectedNext(providers: seq<string>, scripts: Scripts, i: nat)
    requires i < |providers|
    ensures var p := providers[i];
            && Expected(providers[..i + 1], scripts) == Expected(providers[..i], scripts) + Contribution(p, scripts(p))
            && ExpectedAttempts(providers[..i + 1], scripts)
               == ExpectedAttempts(providers[..i], scripts) + Attempting(p, scripts(p))
  {
    assert providers[..i + 1][..i] == providers[..i];
  }

  lemma TurnReported(before: Run, run: Run, providers: seq<string>, scripts: Scripts, i: nat)
    requires i < |providers| && Reported(before, providers, scripts, i, i)
    requires TurnDone(before, run, providers[i], scripts(providers[i]))
    ensures Reported(run, providers, scripts, i + 1, i + 1)
  {
    hide Contribution, Attempting, Expected, ExpectedAttempts;
    ExpectedNext(providers, scripts, i);
  }

  // Every row is the account of one of the first `done` providers, and each of their sources has one.
  ghost predicate AllTold(attempts: Attempts, providers: seq<string>, scripts: Scripts, done: nat) {
    && (forall a :: a in attempts ==> FinalizedBefore(attempts[a], providers, scripts, done))
    && AllBegun(attempts, providers, scripts, done)
  }

  lemma TurnTold(was: Attempts, now: Attempts, providers: seq<string>, scripts: Scripts, i: nat)
    requires i < |providers| && AllTold(was, providers, scripts, i) && TurnRows(was, now, providers[i], scripts(providers[i]))
    ensures AllTold(now, providers, scripts, i + 1)
  {
    hide FinalizedAs;
    RowsStay(was, now, providers, scripts, i);
    forall a | a in now
      ensures FinalizedBefore(now[a], providers, scripts, i + 1)
    {
      if a in was {
        assert FinalizedBefore(was[a], providers, scripts, i);
      }
    }
  }

  // Rows that keep their provider and source still cover what they covered.
  lemma RowsStay(was: Attempts, now: Attempts, providers: seq<string>, scripts: Scripts, m: nat)
    requires AllBegun(was, providers, scripts, m)
    requires forall a :: a in was ==> a in now && now[a].provider == was[a].provider && now[a].source == was[a].source
    ensures AllBegun(now, providers, scripts, m)
  {
    forall j, source | 0 <= j < |providers| && j < m && Asks(scripts(providers[j]).plan, source)
      ensures HasRow(now, providers[j], source)
    {
      assert HasRow(was, providers[j], source);
    }
  }

  /** How a run stands in the end.  The first `done` providers finished: each of their rows is a
      finalized account, and their failures are among those reported.  At most one more was begun
      and interrupted; `asked` says whether discovery had been called for it, and then none of its
      rows the handler reached lost what the accepted result said.  Reported are the failures of the
      first `k` providers, attempted the first `m`. */
  ghost predicate RunTold(run: Run, attempts: Attempts, providers: seq<string>, scripts: Scripts,
                          done: nat, k: nat, m: nat, asked: bool) {
    && Reported(run, providers, scripts, k, m) && done <= k && m <= done + 1
    && (forall a :: a in attempts ==>
          || FinalizedBefore(attempts[a], providers, scripts, done)
          || (m == done + 1 && InterruptedAs(attempts[a], providers[done], scripts(providers[done]), asked)))
    && AllBegun(attempts, providers, scripts, m)
  }

  lemma FinishedTold(run: Run, attempts: Attempts, providers: seq<string>, scripts: Scripts, done: nat, asked: bool)
    requires Reported(run, providers, scripts, done, done) && AllTold(attempts, providers, scripts, done)
    ensures RunTold(run, attempts, providers, scripts, done, done, done, asked)
  {
    hide Reported, FinalizedBefore, AllBegun;
    assert done <= |providers| by {
      ReportedAreProviders(run, providers, scripts, done);
    }
    assert Reported(run, providers, scripts, done, done);
  }

  lemma ReportedAreProviders(run: Run, providers: seq<string>, scripts: Scripts, done: nat)
    requires Reported(run, providers, scripts, done, done)
    ensures done <= |providers|
  {
  }

  // The rows of an interrupted turn, and what the handler leaves of them.
  lemma InterruptedRows(was: Attempts, now: Attempts, attempts: Attempts, providers: seq<string>, scripts: Scripts, i: nat,
                        rows: map<string, AttemptId>, t: Telemetry, asked: bool)
    requires i < |providers| && AllTold(was, providers, scripts, i) && scripts(providers[i]).plan.Planned?
    requires BegunRows(was, now, providers[i], scripts(providers[i]).plan.sources, rows)
    requires attempts == now || attempts == Aborted(now, Running(now), t)
    requires asked && attempts != now ==> Tells(t, providers[i], scripts(providers[i]))
    ensures forall a :: a in attempts ==>
      || FinalizedBefore(attempts[a], providers, scripts, i)
      || InterruptedAs(attempts[a], providers[i], scripts(providers[i]), asked)
    ensures AllBegun(attempts, providers, scripts, i + 1)
  {
    hide FinalizedAs, AbortedRow, AbortedAs, Sum, Column, Tells;
    var provider, script := providers[i], scripts(providers[i]);
    forall a | a in attempts
      ensures FinalizedBefore(attempts[a], providers, scripts, i) || InterruptedAs(attempts[a], provider, script, asked)
    {
      if a in was {
        assert FinalizedBefore(was[a], providers, scripts, i);
        NotRunning(was[a], providers, scripts, i);
      } else {
        assert now[a] == NewAttempt(provider, now[a].source) && now[a].source in script.plan.sources;
        if attempts != now {
          AbortedRowTells(t, provider, script, now[a].source, asked);
        }
      }
    }
    RowsNamed(now, attempts, t);
    RowsStay(was, attempts, providers, scripts, i);
    forall source | source in script.plan.sources
      ensures HasRow(attempts, provider, source)
    {
      assert rows[source] in attempts;
    }
  }

  lemma NotRunning(row: Attempt, providers: seq<string>, scripts: Scripts, done: nat)
    requires FinalizedBefore(row, providers, scripts, done)
    ensures row.status != AttemptRunning
  {
    hide Answers, SaysError;
  }

  lemma RowsNamed(now: Attempts, attempts: Attempts, t: Telemetry)
    requires attempts == now || attempts == Aborted(now, Running(now), t)
    ensures attempts.Keys == now.Keys
    ensures forall a :: a in now ==> attempts[a].provider == now[a].provider && attempts[a].source == now[a].source
  {
  }

  // Nothing to ask means nothing to report.
  lemma NothingAsked(provider: string, script: Script)
    requires script.plan.Planned? && script.plan.sources == []
    requires script.discovery.Some? ==> script.discovery.value.Consistent()
    ensures Contribution(provider, script) == []
  {
    if Answers(provider, script) {
      var result := script.discovery.value;
      ErrorsHaveSources(result);
    }
  }

  lemma ErrorsHaveSources(result: DiscoveryResult)
    requires result.Consistent()
    ensures result.errors != [] ==> result.HasSource(result.errors[0].source)
  {
    if result.errors != [] {
      assert result.errors[0] in result.errors;
    }
  }

  lemma RunningAreBegun(was: Attempts, now: Attempts, provider: string, sources: seq<string>, rows: map<string, AttemptId>)
    requires BegunRows(was, now, provider, sources, rows) && NoneRunning(was)
    ensures Running(now) == rows.Values && (Running(now) == {} ==> sources == [])
  {
    hide Sum, Column;
    assert forall a :: a in now && a !in was ==> now[a].source in rows && rows[now[a].source] == a;
    assert forall s :: s in rows ==> rows[s] in Running(now);
    if sources != [] {
      assert sources[0] in rows;
    }
  }

  /** However a turn was interrupted, and whatever the handler then managed: no failure of a finished
      provider is lost, none is recorded twice, and a handler that completed has lost none of the
      interrupted one's either if it had been asked. */
  lemma InterruptedReported(stage: Stage, before: Run, was: Attempts, stopped: Run, now: Attempts, run: Run, attempts: Attempts,
                            providers: seq<string>, scripts: Scripts, i: nat,
                            ids: Option<map<string, AttemptId>>, t: Option<Telemetry>, handled: bool)
    returns (done: nat, k: nat, m: nat)
    requires i < |providers| && Reported(before, providers, scripts, i, i) && NoneRunning(was)
    requires AllTold(was, providers, scripts, i) && Possible(providers, scripts)
    requires StoppedAt(stage, before, was, stopped, now, providers[i], scripts(providers[i]), ids, t)
    requires HandlerDid(stopped, now, run, attempts,
                        if ids.Some? && ids.value.Values == Running(now) && t.Some? then t.value else NO_TELEMETRY, handled)
    ensures RunTold(run, attempts, providers, scripts, done, k, m, ids.Some?)
    ensures handled && ids.Some? ==> k == m
    ensures done <= m <= |providers|
    ensures ExpectedAttempts(providers[..if ids.Some? then m else done], scripts)
         == AskedSoFar(providers, scripts, stage, ids, i)
  {
    hide Contribution, Expected, ExpectedAttempts, Running, AllTold, Begun, Aborted, Tells, TurnRows, AllBegun, FinalizedBefore,
      InterruptedAs;
    var provider, script := providers[i], scripts(providers[i]);
    ExpectedNext(providers, scripts, i);
    match stage {
      case Untouched =>
        NoneRunningSet(was);
        FinishedTold(run, attempts, providers, scripts, i, ids.Some?);
        done, k, m := i, i, i;
      case Finished =>
        TurnTold(was, now, providers, scripts, i);
        AllToldAtRest(now, providers, scripts, i + 1);
        NoneRunningSet(now);
        TurnReported(before, stopped, providers, scripts, i);
        FinishedTold(run, attempts, providers, scripts, i + 1, ids.Some?);
        done, k, m := i + 1, i + 1, i + 1;
      case InTurn =>
        var rows :| BegunRows(was, now, provider, script.plan.sources, rows) && (ids.Some? ==> ids.value == rows);
        RunningAreBegun(was, now, provider, script.plan.sources, rows);
        var trusted := if ids.Some? && t.Some? then t.value else NO_TELEMETRY;
        InterruptedRows(was, now, attempts, providers, scripts, i, rows, trusted, ids.Some?);
        TellsContribution(trusted, provider, script, ids.Some?);
        if ids.Some? && Running(now) == {} {
          NothingAsked(provider, script);
        }
        done, m := i, i + 1;
        k := if run.failures == Expected(providers[..i + 1], scripts) then i + 1 else i;
    }
  }

  lemma TellsContribution(t: Telemetry, provider: string, script: Script, asked: bool)
    requires script.plan.Planned? && if asked then Tells(t, provider, script) else t == NO_TELEMETRY
    ensures asked ==> t.failures == Contribution(provider, script)
    ensures !asked ==> t.failures == []
  {
  }

  lemma NoneRunningSet(attempts: Attempts)
    requires NoneRunning(attempts)
    ensures Running(attempts) == {}
  {
  }

  lemma AllToldAtRest(attempts: Attempts, providers: seq<string>, scripts: Scripts, done: nat)
    requires AllTold(attempts, providers, scripts, done)
    ensures NoneRunning(attempts)
  {
    hide FinalizedBefore, AllBegun;
    forall a | a in attempts
      ensures attempts[a].status != AttemptRunning
    {
      NotRunning(attempts[a], providers, scripts, done);
    }
  }

  lemma NothingDegraded(attempts: Attempts, providers: seq<string>, scripts: Scripts, done: nat)
    requires AllTold(attempts, providers, scripts, done) && !SomeDegraded(providers, scripts)
    ensures AllCompleted(attempts)
  {
    hide FinalizedAs, Degraded, AllBegun;
    forall a | a in attempts
      ensures attempts[a].status == AttemptCompleted && attempts[a].errorCategory.None? && attempts[a].errorMessage.None?
    {
      assert FinalizedBefore(attempts[a], providers, scripts, done);
      var j :| 0 <= j < |providers| && j < done && FinalizedAs(attempts[a], providers[j], scripts(providers[j]));
      FinalizedCompleted(attempts[a], providers[j], scripts(providers[j]));
    }
  }

  ghost predicate SomeDegraded(providers: seq<string>, scripts: Scripts) {
    exists i :: 0 <= i < |providers| && Degraded(scripts(providers[i]))
  }

  lemma DegradedNext(providers: seq<string>, scripts: Scripts, i: nat)
    requires i < |providers|
    ensures SomeDegraded(providers[..i + 1], scripts) <==>
      (SomeDegraded(providers[..i], scripts) || Degraded(scripts(providers[i])))
  {
    hide Degraded;
    var upTo, before := providers[..i + 1], providers[..i];
    assert upTo[i] == providers[i] && forall j :: 0 <= j < i ==> upTo[j] == before[j];
  }

  // The flags so far, against the scripts of the providers so far and the tables.
  ghost predicate FoundSoFar(found: Findings, providers: seq<string>, scripts: Scripts, before: Db, after: Db) {
    && (found.planningFailure || found.sourceIssue <==> SomeDegraded(providers, scripts))
    && FlagsTell(before, after, found.parseError, found.conflict)
  }

  lemma FoundNext(found: Findings, more: Findings, providers: seq<string>, scripts: Scripts, i: nat, a: Db, b: Db, c: Db)
    requires i < |providers| && FoundSoFar(found, providers[..i], scripts, a, b)
    requires (more.planningFailure || more.sourceIssue <==> Degraded(scripts(providers[i])))
    requires FlagsTell(b, c, more.parseError, more.conflict)
    ensures FoundSoFar(Both(found, more), providers[..i + 1], scripts, a, c)
  {
    hide Degraded, SomeDegraded, FlagsTell;
    DegradedNext(providers, scripts, i);
    FlagsCompose(a, b, c, found.parseError, found.conflict, more.parseError, more.conflict);
  }

  // Why the loop stopped early, for the handler.
  ghost predicate Stopped(store: RunStore, providers: seq<string>, scripts: Scripts, stage: Stage,
                          ids: Option<map<string, AttemptId>>, t: Option<Telemetry>, before: Run, was: Attempts, i: nat)
    reads store
  {
    && i < |providers| && Reported(before, providers, scripts, i, i)
    && NoneRunning(was) && AllTold(was, providers, scripts, i)
    && StoppedAt(stage, before, was, store.run, store.attempts, providers[i], scripts(providers[i]), ids, t)
  }

  // What the tables hold by then: all that the finished turns counted, and what the interrupted one stored.
  ghost predicate StoppedStored(stage: Stage, before: Run, was: Attempts, run: Run, now: Attempts, start: Db, midway: Db, db: Db,
                                ids: Option<map<string, AttemptId>>, t: Option<Telemetry>) {
    && RollupExact(before, was) && RaisedAsStored(NEW_RUN, before, start, midway)
    && StoredBy(stage, before, run, now, midway, db, ids, t)
  }

  /** However a turn was interrupted, once the run is no longer running its counters count no job that is not
      in the tables, miss at most one, and count every raw row. */
  lemma InterruptedWithin(stage: Stage, before: Run, was: Attempts, stopped: Run, now: Attempts, run: Run, attempts: Attempts,
                          provider: string, script: Script, ids: Option<map<string, AttemptId>>, t: Option<Telemetry>, handled: bool,
                          start: Db, midway: Db, db: Db)
    requires NoneRunning(was) && StoppedAt(stage, before, was, stopped, now, provider, script, ids, t)
    requires StoppedStored(stage, before, was, stopped, now, start, midway, db, ids, t)
    requires HandlerDid(stopped, now, run, attempts,
                        if ids.Some? && ids.value.Values == Running(now) && t.Some? then t.value else NO_TELEMETRY, handled)
    requires RollupExact(run, attempts) && NoneRunning(attempts)
    ensures RaisedWithin(NEW_RUN, run, start, db)
  {
    hide Sum, Column, Begun, Aborted, RollupExact, RaisedAsStored, Tells, TurnDone, TurnRows, ToldWithin, RaisedWithin, Running;
    NoneRunningSet(attempts);
    match stage {
      case Untouched =>
        NoneRunningSet(was);
        RollupsAgree(before, run, was);
        NothingRaised(before, before, midway);
        ExactIsWithin(before, before, run, midway, midway);
      case Finished =>
        TurnAtRest(was, now, provider, script);
        NoneRunningSet(now);
        RollupsAgree(stopped, run, now);
        ExactIsWithin(before, stopped, run, midway, db);
      case InTurn =>
        var rows :| BegunRows(was, now, provider, script.plan.sources, rows) && (ids.Some? ==> ids.value == rows);
        RunningAreBegun(was, now, provider, script.plan.sources, rows);
        var trusted := if ids.Some? then t.value else NO_TELEMETRY;
        AbortedNothing(now, trusted);
        assert attempts == Aborted(now, Running(now), trusted);
        if ids.Some? {
          FailedWithin(before, was, now, provider, rows, trusted, run, midway, db);
        } else {
          FailedUntold(before, was, now, provider, rows, run, midway);
        }
    }
    RaisedThenWithin(NEW_RUN, before, run, start, midway, db);
  }

  lemma TurnAtRest(was: Attempts, now: Attempts, provider: string, script: Script)
    requires TurnRows(was, now, provider, script) && NoneRunning(was)
    ensures NoneRunning(now)
  {
    hide Answers, SaysError, Identified, HasRow;
    forall a | a in now
      ensures now[a].status != AttemptRunning
    {
      if a !in was {
        assert FinalizedAs(now[a], provider, script);
      }
    }
  }

  ghost function AskedSoFar(providers: seq<string>, scripts: Scripts, stage: Stage, ids: Option<map<string, AttemptId>>,
                            turn: nat): seq<string>
  {
    if turn < |providers| then
      ExpectedAttempts(providers[..turn], scripts)
      + if AskedIn(stage, ids) then Attempting(providers[turn], scripts(providers[turn])) else []
    else []
  }

  method RunProviders(store: RunStore, db: Database, discovery: Discovery, hash: HashFunction, observedAt: Time, providers: seq<string>, scripts: Scripts)
    returns (ok: bool, found: Findings, ids: Option<map<string, AttemptId>>, state: ProviderExecutionState?,
             ghost stage: Stage, ghost before: Run, ghost was: Attempts, ghost turn: nat, ghost midway: Db)
    requires AtRest(store) && store.run == NEW_RUN && ValidDb(db.Contents()) && Possible(providers, scripts)
    requires Reported(store.run, providers, scripts, 0, 0) && AllTold(store.attempts, providers, scripts, 0)
    requires discovery.asked == []
    modifies store, db, discovery
    ensures store.Valid() && old(store.versions) <= store.versions && ValidDb(db.Contents())
    ensures ok ==> AtRest(store) && Reported(store.run, providers, scripts, |providers|, |providers|)
    ensures ok ==> AllTold(store.attempts, providers, scripts, |providers|)
    ensures ok ==> discovery.asked == ExpectedAttempts(providers, scripts)
    ensures ok ==> FoundSoFar(found, providers, scripts, old(db.Contents()), db.Contents())
    ensures !ok ==> Stopped(store, providers, scripts, stage, ids, TelemetryIn(state), before, was, turn)
    ensures !ok ==> discovery.asked == AskedSoFar(providers, scripts, stage, ids, turn)
    ensures ok ==> RaisedAsStored(NEW_RUN, store.run, old(db.Contents()), db.Contents())
    ensures !ok ==> StoppedStored(stage, before, was, store.run, store.attempts, old(db.Contents()), midway, db.Contents(),
                                  ids, TelemetryIn(state))
    ensures SightedAt(old(db.Contents()), db.Contents(), observedAt)
    ensures ok ==> AllAnswered(providers, scripts, |providers|)
  {
    hide ValidDb, FlagsTell, StoppedAt, TurnDone, TurnRows, AllTold, RollupExact, NoneRunning, History, Reported, Degraded,
      FoundSoFar, SomeDegraded, RaisedAsStored, StoredBy, SightedAt, Accepted;
    SameSightings(db.Contents(), db.Contents(), observedAt);
    ok, found, ids, state, stage, before, was, turn := true, NO_FINDINGS, None, null, Untouched, store.run, store.attempts, 0;
    midway := db.Contents();
    NothingRaised(NEW_RUN, NEW_RUN, midway);
    NothingFound(providers, scripts, db.Contents());
    for i := 0 to |providers|
      invariant AtRest(store) && old(store.versions) <= store.versions && ValidDb(db.Contents())
      invariant Reported(store.run, providers, scripts, i, i) && AllTold(store.attempts, providers, scripts, i)
      invariant FoundSoFar(found, providers[..i], scripts, old(db.Contents()), db.Contents())
      invariant discovery.asked == ExpectedAttempts(providers[..i], scripts)
      invariant RaisedAsStored(NEW_RUN, store.run, old(db.Contents()), db.Contents())
      invariant SightedAt(old(db.Contents()), db.Contents(), observedAt) && AllAnswered(providers, scripts, i)
    {
      before, was, turn, midway := store.run, store.attempts, i, db.Contents();
      var more;
      ok, more, ids, state, stage := RunTurn(store, db, discovery, hash, observedAt, providers[i], scripts(providers[i]));
      SightedTwice(old(db.Contents()), midway, db.Contents(), observedAt);
      if !ok {
        return;
      }
      ExpectedNext(providers, scripts, i);
      TurnReported(before, store.run, providers, scripts, i);
      TurnTold(was, store.attempts, providers, scripts, i);
      FoundNext(found, more, providers, scripts, i, old(db.Contents()), midway, db.Contents());
      RaisedTwice(NEW_RUN, before, store.run, old(db.Contents()), midway, db.Contents());
      found := Both(found, more);
      ids, state := None, null;
    }
    assert providers[..|providers|] == providers;
    ok := true;
  }

  lemma NothingFound(providers: seq<string>, scripts: Scripts, db: Db)
    ensures FoundSoFar(NO_FINDINGS, providers[..0], scripts, db, db)
  {
    Unchanged(db);
  }

  /** On every run, however it ends:
      - unless it is left running, the rollup is exactly the sum over the attempt rows and none of
        them is running;
      - every committed version of the attempt table keeps the terminal rows of all earlier ones;
      - the first `done` providers finished, and their failures are reported, each once and in order;
        every row is a finalized account of one of them or belongs to the one provider interrupted;
      - an interrupted provider that had been asked has all its failures reported too, each once,
        when the handler completes;
      - a normal end has run and reported every provider, and is clean if and only if no plan failed,
        no result was possibly incomplete, and no parse error or conflict was stored; a clean run's
        attempt rows all completed without error. */
  method RunSavedSearch(store: RunStore, db: Database, discovery: Discovery, hash: HashFunction, observedAt: Time, providers: seq<string>, scripts: Scripts)
    returns (ok: bool, handled: bool, ghost done: nat, ghost k: nat, ghost m: nat, ghost asked: bool)
    requires store.Valid() && store.run == NEW_RUN && store.attempts == map[] && discovery.asked == []
    requires ValidDb(db.Contents()) && Possible(providers, scripts)
    modifies store, db, discovery
    ensures Settled(store.run, store.attempts)
    ensures History(store.versions) && old(store.versions) <= store.versions
    ensures store.versions[|store.versions| - 1] == store.attempts
    ensures RunTold(store.run, store.attempts, providers, scripts, done, k, m, asked)
    ensures handled && asked ==> k == m
    ensures done <= m <= |providers| && discovery.asked == ExpectedAttempts(providers[..if asked then m else done], scripts)
    ensures ok ==> done == |providers|
    ensures ok ==> store.run.status == RunCompleted || store.run.status == RunCompletedWithErrors
    ensures ok ==> (store.run.status == RunCompleted <==>
      && !SomeDegraded(providers, scripts)
      && !NewParseErrors(old(db.Contents()), db.Contents())
      && |db.conflicts| == |old(db.conflicts)|)
    ensures ok && store.run.status == RunCompleted ==> AllCompleted(store.attempts)
    ensures !ok && handled ==> store.run.status == RunFailed
    ensures ok ==> (store.run.status == RunCompleted <==>
      && store.run.failures == [] && AllCompleted(store.attempts)
      && !NewParseErrors(old(db.Contents()), db.Contents()) && |db.conflicts| == |old(db.conflicts)|)
    ensures forall p :: p in store.run.providersAttempted <==> AmongAsked(providers, scripts, m, p)
    ensures SightedAt(old(db.Contents()), db.Contents(), observedAt)
    ensures InTurns(store.run.failures, providers, scripts, k)
    ensures AllDifferent(providers) ==> ListedOnce(store.run.failures, providers, scripts, k)
    ensures ok ==> store.run.discovered == |db.raws| - |old(db.raws)| && store.run.inserted == |db.jobs| - |old(db.jobs)|
    ensures ok ==> store.run.updated == store.run.discovered - store.run.inserted - |NewUnparsed(old(db.Contents()), db.Contents())|
    ensures store.run.status != RunRunning ==> store.run.inserted <= |db.jobs| - |old(db.jobs)| <= store.run.inserted + 1
    ensures store.run.status != RunRunning ==> |db.raws| - |old(db.raws)| <= store.run.discovered
    ensures ValidDb(db.Contents())
  {
    hide ValidDb, StoppedAt, AllTold, RunTold, NoneRunning, TerminalKept, Reported, Sum, Column, HandlerDid, AllCompleted,
      SomeDegraded, FoundSoFar, NewParseErrors, ExpectedAttempts, AskedSoFar, History, RollupExact, RaisedAsStored, StoppedStored,
      RaisedWithin, InTurns, ListedOnce, NewUnparsed, SightedAt, AmongAsked, AllAnswered,
      Stopped, AllDifferent, Possible;
    handled := false;
    StartsAtRest(providers, scripts, store.run, store.attempts);
    var found, ids, state;
    ghost var stage, before, was, turn, midway;
    ok, found, ids, state, stage, before, was, turn, midway := RunProviders(store, db, discovery, hash, observedAt, providers, scripts);
    ghost var stopped, rows, n := store.run, store.attempts, |providers|;
    if ok {
      FindingsTell(found, providers, scripts, old(db.Contents()), db.Contents());
      var status := if found == NO_FINDINGS then RunCompleted else RunCompletedWithErrors;
      ok := store.FinishRun(status);
      StatusAlone(stopped, store.run, rows);
      if !ok {
        ghost var closed := store.run;
        handled := HandleAbort(store, None, null);
        HandledAtRest(closed, rows, store.run, store.attempts, handled);
      }
      done, k, m, asked := n, n, n, false;
      FinishedRun(stopped, store.run, rows, providers, scripts, old(db.Contents()), db.Contents());
    } else {
      StoppedRunning(store, providers, scripts, stage, ids, TelemetryIn(state), before, was, turn);
      handled := HandleAbort(store, ids, state);
      done, k, m := AbortedRun(stage, before, was, stopped, rows, store.run, store.attempts, providers, scripts, turn,
                               ids, TelemetryIn(state), handled, old(db.Contents()), midway, db.Contents());
      asked := ids.Some?;
    }
    ToldIsListed(store.run, store.attempts, providers, scripts, done, k, m, asked);
    WithinMeans(store.run, old(db.Contents()), db.Contents());
  }

  // What the failures reported are, turn by turn and error by error.
  lemma ToldIsListed(run: Run, attempts: Attempts, providers: seq<string>, scripts: Scripts, done: nat, k: nat, m: nat, asked: bool)
    requires RunTold(run, attempts, providers, scripts, done, k, m, asked)
    ensures InTurns(run.failures, providers, scripts, k)
    ensures AllDifferent(providers) ==> ListedOnce(run.failures, providers, scripts, k)
    ensures forall p :: p in run.providersAttempted <==> AmongAsked(providers, scripts, m, p)
  {
    hide InTurns, ListedOnce, AllBegun, FinalizedBefore, InterruptedAs, AmongAsked;
    forall p
      ensures p in ExpectedAttempts(providers[..m], scripts) <==> AmongAsked(providers, scripts, m, p)
    {
      AttemptsAre(providers, scripts, m, p);
    }
    ExpectedInTurns(providers, scripts, k);
    if AllDifferent(providers) {
      ExpectedListedOnce(providers, scripts, k);
    }
  }

  lemma WithinMeans(run: Run, db: Db, db': Db)
    ensures RaisedWithin(NEW_RUN, run, db, db') ==>
      run.inserted <= |db'.jobs| - |db.jobs| <= run.inserted + 1 && |db'.raws| - |db.raws| <= run.discovered
    ensures RaisedAsStored(NEW_RUN, run, db, db') ==>
      && run.discovered == |db'.raws| - |db.raws| && run.inserted == |db'.jobs| - |db.jobs|
      && run.updated == run.discovered - run.inserted - |NewUnparsed(db, db')|
  {
  }

  // One of the first providers, with something to be asked.
  predicate AmongAsked(providers: seq<string>, scripts: Scripts, m: nat, p: string) {
    exists j :: 0 <= j < m && j < |providers| && providers[j] == p && scripts(p).plan.Planned?
  }

  lemma {:induction false} AttemptsAre(providers: seq<string>, scripts: Scripts, m: nat, p: string)
    requires m <= |providers|
    ensures p in ExpectedAttempts(providers[..m], scripts) <==> AmongAsked(providers, scripts, m, p)
  {
    if m > 0 {
      AttemptsAre(providers, scripts, m - 1, p);
      assert providers[..m][..m - 1] == providers[..m - 1];
      assert AmongAsked(providers, scripts, m, p)
        <==> AmongAsked(providers, scripts, m - 1, p) || (providers[m - 1] == p && scripts(p).plan.Planned?);
    }
  }

  // Every provider that had something to be asked has answered.
  ghost predicate AllAnswered(providers: seq<string>, scripts: Scripts, n: nat) {
    forall j :: 0 <= j < |providers| && j < n && scripts(providers[j]).plan.Planned? ==> Answers(providers[j], scripts(providers[j]))
  }

  // What a provider that has not degraded adds to the failures.
  lemma ContributesNothing(provider: string, script: Script)
    ensures !Degraded(script) ==> Contribution(provider, script) == []
    ensures Contribution(provider, script) == [] && (script.plan.Planned? ==> Answers(provider, script)) ==>
      !PlanFails(script.plan) && (script.plan.Planned? ==> script.discovery.value.errors == [])
  {
    hide SelfConsistent;
  }

  lemma {:induction false} NothingToList(providers: seq<string>, scripts: Scripts, n: nat)
    requires n <= |providers| && !SomeDegraded(providers, scripts)
    ensures Expected(providers[..n], scripts) == []
  {
    hide Contribution, Degraded, Expected;
    if n == 0 {
      NothingExpected(scripts);
    } else {
      NothingToList(providers, scripts, n - 1);
      ExpectedNext(providers, scripts, n - 1);
      assert !Degraded(scripts(providers[n - 1]));
      ContributesNothing(providers[n - 1], scripts(providers[n - 1]));
    }
  }

  lemma NothingExpected(scripts: Scripts)
    ensures Expected([], scripts) == []
  {
  }

  lemma {:induction false} NothingListed(providers: seq<string>, scripts: Scripts, n: nat, j: nat)
    requires j < n <= |providers| && Expected(providers[..n], scripts) == []
    ensures Contribution(providers[j], scripts(providers[j])) == []
  {
    hide Contribution, Expected;
    ExpectedNext(providers, scripts, n - 1);
    if j < n - 1 {
      NothingListed(providers, scripts, n - 1, j);
    }
  }

  // A provider whose rows all completed has answered without a source missing.
  lemma AnsweredWell(attempts: Attempts, providers: seq<string>, scripts: Scripts, i: nat)
    requires AllTold(attempts, providers, scripts, |providers|) && Possible(providers, scripts) && AllCompleted(attempts)
    requires i < |providers| && Answers(providers[i], scripts(providers[i]))
    ensures forall stat :: stat in scripts(providers[i]).discovery.value.stats ==> stat.completed && !stat.incompleteResults
  {
    hide SaysError, Identified, OfProvider, StatsHold;
    var provider, script := providers[i], scripts(providers[i]);
    var result := script.discovery.value;
    forall stat | stat in result.stats
      ensures stat.completed && !stat.incompleteResults
    {
      var k :| 0 <= k < |result.stats| && result.stats[k] == stat;
      assert result.HasSource(stat.source);
      assert Asks(script.plan, stat.source) && HasRow(attempts, provider, stat.source);
      var a :| a in attempts && attempts[a].provider == provider && attempts[a].source == stat.source;
      assert FinalizedBefore(attempts[a], providers, scripts, |providers|);
      var j :| 0 <= j < |providers| && FinalizedAs(attempts[a], providers[j], scripts(providers[j]));
      var n: nat :| SaysStat(attempts[a], result, n) && SaysStatus(attempts[a], result.stats[n]);
      assert n == k;
    }
  }

  // Nothing listed and every attempt completed: no provider degraded.
  lemma NothingMissed(attempts: Attempts, providers: seq<string>, scripts: Scripts)
    requires AllTold(attempts, providers, scripts, |providers|) && Possible(providers, scripts)
    requires Expected(providers, scripts) == [] && AllCompleted(attempts) && AllAnswered(providers, scripts, |providers|)
    ensures !SomeDegraded(providers, scripts)
  {
    hide Contribution, FinalizedBefore, AllCompleted, Expected, AllTold, Accepted, Possible;
    assert providers[..|providers|] == providers;
    forall i | 0 <= i < |providers|
      ensures !Degraded(scripts(providers[i]))
    {
      NothingListed(providers, scripts, |providers|, i);
      ContributesNothing(providers[i], scripts(providers[i]));
      if scripts(providers[i]).plan.Planned? {
        AnsweredWell(attempts, providers, scripts, i);
      }
    }
  }

  // All providers finished, whatever became of the final status.
  lemma FinishedRun(stopped: Run, run: Run, attempts: Attempts, providers: seq<string>, scripts: Scripts, start: Db, db: Db)
    requires Reported(stopped, providers, scripts, |providers|, |providers|) && AllTold(attempts, providers, scripts, |providers|)
    requires run.failures == stopped.failures && run.providersAttempted == stopped.providersAttempted
    requires RollupExact(stopped, attempts) && RaisedAsStored(NEW_RUN, stopped, start, db)
    requires Possible(providers, scripts) && AllAnswered(providers, scripts, |providers|)
    ensures RunTold(run, attempts, providers, scripts, |providers|, |providers|, |providers|, false)
    ensures providers[..|providers|] == providers
    ensures !SomeDegraded(providers, scripts) <==> run.failures == [] && AllCompleted(attempts)
    ensures run.status != RunRunning && Settled(run, attempts) ==> RaisedWithin(NEW_RUN, run, start, db)
    ensures SameCounters(stopped, run) ==> RaisedAsStored(NEW_RUN, run, start, db)
  {
    hide AllTold, RunTold, RollupExact, RaisedWithin, SomeDegraded, AllCompleted, NoneRunning, Possible, AllAnswered;
    var n := |providers|;
    SameReport(stopped, run, providers, scripts, n, n);
    FinishedTold(run, attempts, providers, scripts, n, false);
    assert providers[..n] == providers && run.failures == Expected(providers[..n], scripts);
    if !SomeDegraded(providers, scripts) {
      NothingDegraded(attempts, providers, scripts, n);
      NothingToList(providers, scripts, n);
    }
    if run.failures == [] && AllCompleted(attempts) {
      NothingMissed(attempts, providers, scripts);
    }
    if run.status != RunRunning && Settled(run, attempts) {
      RollupsAgree(stopped, run, attempts);
      ExactIsWithin(NEW_RUN, stopped, run, start, db);
    }
  }

  // A turn was interrupted and the handler has had its chance.
  lemma AbortedRun(stage: Stage, before: Run, was: Attempts, stopped: Run, now: Attempts, run: Run, attempts: Attempts,
                   providers: seq<string>, scripts: Scripts, i: nat, ids: Option<map<string, AttemptId>>, t: Option<Telemetry>,
                   handled: bool, start: Db, midway: Db, db: Db)
    returns (done: nat, k: nat, m: nat)
    requires i < |providers| && Reported(before, providers, scripts, i, i) && NoneRunning(was)
    requires AllTold(was, providers, scripts, i) && Possible(providers, scripts)
    requires StoppedAt(stage, before, was, stopped, now, providers[i], scripts(providers[i]), ids, t)
    requires StoppedStored(stage, before, was, stopped, now, start, midway, db, ids, t)
    requires HandlerDid(stopped, now, run, attempts,
                        if ids.Some? && ids.value.Values == Running(now) && t.Some? then t.value else NO_TELEMETRY, handled)
    requires Settled(run, attempts)
    ensures RunTold(run, attempts, providers, scripts, done, k, m, ids.Some?)
    ensures handled && ids.Some? ==> k == m
    ensures done <= m <= |providers|
    ensures ExpectedAttempts(providers[..if ids.Some? then m else done], scripts)
         == AskedSoFar(providers, scripts, stage, ids, i)
    ensures run.status != RunRunning ==> RaisedWithin(NEW_RUN, run, start, db)
  {
    hide Reported, AllTold, StoppedAt, StoppedStored, HandlerDid, Running, RunTold, RaisedWithin, RollupExact, NoneRunning, ExpectedAttempts,
      AskedSoFar;
    done, k, m := InterruptedReported(stage, before, was, stopped, now, run, attempts, providers, scripts, i, ids, t, handled);
    if run.status != RunRunning {
      InterruptedWithin(stage, before, was, stopped, now, run, attempts, providers[i], scripts(providers[i]), ids, t, handled,
                        start, midway, db);
    }
  }

  // A run without findings is one in which nothing degraded and nothing of either kind was stored.
  lemma FindingsTell(found: Findings, providers: seq<string>, scripts: Scripts, before: Db, after: Db)
    requires FoundSoFar(found, providers, scripts, before, after)
    ensures found == NO_FINDINGS <==>
      !SomeDegraded(providers, scripts) && !NewParseErrors(before, after) && |after.conflicts| == |before.conflicts|
  {
    hide SomeDegraded, NewParseErrors;
  }

  // Changing nothing but the status keeps the rollup exact.
  lemma StatusAlone(run: Run, run': Run, attempts: Attempts)
    requires RollupExact(run, attempts) && NoneRunning(attempts) && run' == run.(status := run'.status)
    ensures RollupExact(run', attempts) && Settled(run', attempts)
  {
    hide Sum, Column;
    forall c: Counter
      ensures OfRun(run', c) == Sum(Column(attempts, c))
    {
      assert OfRun(run', c) == OfRun(run, c);
    }
  }

  lemma HandledAtRest(stopped: Run, now: Attempts, run: Run, attempts: Attempts, handled: bool)
    requires NoneRunning(now) && HandlerDid(stopped, now, run, attempts, Trusted(None, null, Running(now)), handled)
    ensures attempts == now && run.failures == stopped.failures && run.providersAttempted == stopped.providersAttempted
  {
    NoneRunningSet(now);
  }

  lemma SameReport(run: Run, run': Run, providers: seq<string>, scripts: Scripts, k: nat, m: nat)
    requires Reported(run, providers, scripts, k, m)
    requires run'.failures == run.failures && run'.providersAttempted == run.providersAttempted
    ensures Reported(run', providers, scripts, k, m)
  {
  }

  lemma StoppedRunning(store: RunStore, providers: seq<string>, scripts: Scripts, stage: Stage,
                       ids: Option<map<string, AttemptId>>, t: Option<Telemetry>, before: Run, was: Attempts, i: nat)
    requires Stopped(store, providers, scripts, stage, ids, t, before, was, i)
    ensures store.run.status == RunRunning
    ensures i < |providers| && Reported(before, providers, scripts, i, i) && NoneRunning(was) && AllTold(was, providers, scripts, i)
    ensures StoppedAt(stage, before, was, store.run, store.attempts, providers[i], scripts(providers[i]), ids, t)
  {
    hide Reported, AllTold;
  }

  lemma StartsAtRest(providers: seq<string>, scripts: Scripts, run: Run, attempts: Attempts)
    requires run == NEW_RUN && attempts == map[]
    ensures RollupExact(run, attempts) && NoneRunning(attempts) && Reported(run, providers, scripts, 0, 0)
    ensures AllTold(attempts, providers, scripts, 0)
  {
  }
}
