/** What a run over several providers has to show for each of them, given what planning and discovery come to:
    the failures it lists, the providers it asks, and what its attempt rows say. */
module RunScripts {
  import opened Options
  import opened CoveredText
  import opened Ingestion
  import opened Sums
  import opened ProviderExecution
  import opened CollectionRuns
  import opened RunTotals

  // What planning comes to for one provider name.
  datatype Plan =
    | Unregistered(detail: string)
    | RegistryFault
    | Unplannable(detail: string)
    | NothingSelected
    | Planned(sources: seq<string>)

  // Everything outside the model that one provider's turn depends on; `discovery` is None when
  // discovering raises.
  datatype Script = Script(plan: Plan, discovery: Option<DiscoveryResult>)

  type Scripts = string -> Script

  ghost predicate Possible(providers: seq<string>, scripts: Scripts) {
    forall i :: 0 <= i < |providers| && scripts(providers[i]).discovery.Some? ==>
      scripts(providers[i]).discovery.value.Consistent()
  }

  predicate PlanFails(plan: Plan) {
    plan.Unregistered? || plan.Unplannable?
  }

  // The provider has something to be asked, and what it answers is accepted.
  ghost predicate Answers(provider: string, script: Script) {
    script.plan.Planned? && Accepted(script.discovery, provider, script.plan.sources)
  }

  // What a provider's turn has to add to the run's failures: a planning failure, or every error of
  // an accepted result.
  ghost function Contribution(provider: string, script: Script): seq<Failure> {
    match script.plan
    case Unregistered(detail) => [PlanningFailure(provider, detail)]
    case Unplannable(detail) => [PlanningFailure(provider, detail)]
    case Planned(_) => if Answers(provider, script) then Reports(script.discovery.value) else []
    case _ => []
  }

  function Attempting(provider: string, script: Script): seq<string> {
    if script.plan.Planned? then [provider] else []
  }

  /** The failures of the given providers, each once, in the order they were run and reported. */
  ghost function Expected(providers: seq<string>, scripts: Scripts): seq<Failure> {
    if providers == [] then []
    else
      var n := |providers| - 1;
      Expected(providers[..n], scripts) + Contribution(providers[n], scripts(providers[n]))
  }

  function ExpectedAttempts(providers: seq<string>, scripts: Scripts): seq<string> {
    if providers == [] then []
    else
      var n := |providers| - 1;
      ExpectedAttempts(providers[..n], scripts) + Attempting(providers[n], scripts(providers[n]))
  }

  // Reasons for a degraded completion that the scripts alone decide.
  ghost predicate Degraded(script: Script) {
    PlanFails(script.plan)
    || (script.plan.Planned? && script.discovery.Some? && script.discovery.value.PossiblyIncomplete())
  }

  ghost predicate NewParseErrors(before: Db, after: Db) {
    exists r :: r in after.raws && r !in before.raws && after.raws[r].status == ParseError
  }

  // The registered providers' discovery, with a record of whose was called, in order.
  class Discovery {
    ghost var asked: seq<string>

    constructor ()
      ensures asked == []
    {
      asked := [];
    }

    method Discover(provider: string, script: Script) returns (result: Option<DiscoveryResult>)
      modifies this
      ensures result == script.discovery && asked == old(asked) + [provider]
    {
      asked := asked + [provider];
      result := script.discovery;
    }
  }

  // ---------- Between providers ----------

  // Between two providers: the rollup is exact and nothing is in flight.
  ghost predicate AtRest(store: RunStore)
    reads store
  {
    store.Valid() && store.run.status == RunRunning && RollupExact(store.run, store.attempts) && NoneRunning(store.attempts)
  }

  ghost predicate TurnDone(before: Run, after: Run, provider: string, script: Script) {
    && after.failures == before.failures + Contribution(provider, script)
    && after.providersAttempted == before.providersAttempted + Attempting(provider, script)
  }

  // ---------- What the attempt rows say ----------

  // The row carries what the result declared for its source.
  predicate SaysStat(row: Attempt, result: DiscoveryResult, i: nat) {
    && i < |result.stats| && result.stats[i].source == row.source
    && row.discovered == result.stats[i].jobsFound && row.retryCount == result.stats[i].retryCount
    && row.rateLimited == result.stats[i].rateLimited && row.incompleteResults == result.stats[i].incompleteResults
  }

  // The row's error columns are those of its source's latest error, or empty when it reported none.
  ghost predicate SaysError(row: Attempt, errors: seq<ProviderError>) {
    if forall i :: 0 <= i < |errors| ==> errors[i].source != row.source then
      row.errorCategory.None? && row.errorMessage.None?
    else
      exists e: ProviderError :: SelectedAt(errors, row.source, e)
        && row.errorCategory == Some(e.category) && row.errorMessage == CanonicalizeNullableText(e.detail)
  }

  // Failed for a source that did not complete, partial for one that completed with results missing.
  predicate SaysStatus(row: Attempt, stat: SourceStats) {
    && (row.status == AttemptFailed <==> !stat.completed)
    && (row.status == AttemptPartial <==> stat.completed && stat.incompleteResults)
    && (row.status == AttemptCompleted <==> stat.completed && !stat.incompleteResults)
  }

  /** A row finalized by success: the accepted result's own account of the source, with every posting of it
      that has an identity counted as inserted or updated. */
  ghost predicate FinalizedAs(row: Attempt, provider: string, script: Script) {
    && Answers(provider, script) && row.provider == provider && row.source in script.plan.sources
    && (exists i: nat :: SaysStat(row, script.discovery.value, i) && SaysStatus(row, script.discovery.value.stats[i]))
    && row.inserted + row.updated == |Identified(script.discovery.value.jobs, row.source)|
    && SaysError(row, script.discovery.value.errors)
  }

  /** A row failed by the abort handler.  When the provider had been asked, the row keeps the accepted
      result's account of its source. */
  ghost predicate AbortedAs(row: Attempt, provider: string, script: Script, asked: bool) {
    && script.plan.Planned? && row.provider == provider && row.source in script.plan.sources
    && row.status == AttemptFailed
    && row.errorCategory == Some(ABORT_CATEGORY) && row.errorMessage == Some(ABORT_MESSAGE)
    && (asked && Answers(provider, script) ==>
          && (exists i: nat :: SaysStat(row, script.discovery.value, i))
          && row.inserted + row.updated <= |Identified(script.discovery.value.jobs, row.source)|)
  }

  // A row of the provider whose turn was interrupted: left as it was begun, or failed by the handler.
  ghost predicate InterruptedAs(row: Attempt, provider: string, script: Script, asked: bool) {
    || (script.plan.Planned? && row.source in script.plan.sources && row == NewAttempt(provider, row.source))
    || AbortedAs(row, provider, script, asked)
  }

  ghost predicate HasRow(attempts: Attempts, provider: string, source: string) {
    exists a :: a in attempts && attempts[a].provider == provider && attempts[a].source == source
  }

  ghost predicate FinalizedBefore(row: Attempt, providers: seq<string>, scripts: Scripts, done: nat) {
    exists j :: 0 <= j < |providers| && j < done && FinalizedAs(row, providers[j], scripts(providers[j]))
  }

  predicate Asks(plan: Plan, source: string) {
    plan.Planned? && source in plan.sources
  }

  // Every source of the first `m` providers that had something to be asked has its row.
  ghost predicate AllBegun(attempts: Attempts, providers: seq<string>, scripts: Scripts, m: nat) {
    forall j, source :: 0 <= j < |providers| && j < m && Asks(scripts(providers[j]).plan, source) ==>
      HasRow(attempts, providers[j], source)
  }

  // The rows a finished turn added to the table.
  ghost predicate TurnRows(was: Attempts, now: Attempts, provider: string, script: Script) {
    && (forall a :: a in was ==> a in now && now[a] == was[a])
    && (forall a :: a in now && a !in was ==> FinalizedAs(now[a], provider, script))
    && (script.plan.Planned? ==> forall source :: source in script.plan.sources ==> HasRow(now, provider, source))
  }

  // What an execution's telemetry has to say: all of an accepted result, nothing otherwise.
  ghost predicate Tells(t: Telemetry, provider: string, script: Script) {
    script.plan.Planned? &&
    if Answers(provider, script) then
      var result := script.discovery.value;
      && t.failures == Reports(result) && Selects(result.errors, t.selected)
      && (forall i :: 0 <= i < |result.stats| ==>
            result.stats[i].source in t.stats && t.stats[result.stats[i].source] == result.stats[i])
      && (forall source :: source in script.plan.sources ==> CountAt(t.discovered, source) == Count(result.jobs, source))
      && (forall source :: source in script.plan.sources ==> StoredFor(t, source) <= |Identified(result.jobs, source)|)
    else t.failures == []
  }

  // Inserted and updated together.
  function StoredFor(t: Telemetry, source: string): nat {
    CountAt(t.inserted, source) + CountAt(t.updated, source)
  }

  // A completed execution has stored every posting with an identity.
  ghost predicate TellsAll(t: Telemetry, provider: string, script: Script) {
    && Answers(provider, script) && Tells(t, provider, script)
    && forall source :: source in script.plan.sources ==> StoredFor(t, source) == |Identified(script.discovery.value.jobs, source)|
  }

  // Where an interrupted turn stands.
  datatype Stage = Untouched | InTurn | Finished

  ghost predicate BegunRows(was: Attempts, now: Attempts, provider: string, sources: seq<string>, rows: map<string, AttemptId>) {
    Begun(was, now, provider, rows) && forall s :: s in rows <==> s in sources
  }

  /** What the handler finds: a turn that left no trace, one that has running rows and has reported
      nothing yet, or one that is complete.  Whoever learned the running rows' ids also holds all
      there is to tell of them. */
  ghost predicate StoppedAt(stage: Stage, before: Run, was: Attempts, run: Run, now: Attempts, provider: string, script: Script,
                            ids: Option<map<string, AttemptId>>, t: Option<Telemetry>) {
    run.status == RunRunning &&
    match stage
    case Untouched => run.failures == before.failures && run.providersAttempted == before.providersAttempted && now == was
    case InTurn =>
      && script.plan.Planned? && run.failures == before.failures
      && run.providersAttempted == before.providersAttempted + [provider]
      && (exists rows :: BegunRows(was, now, provider, script.plan.sources, rows) && (ids.Some? ==> ids.value == rows))
      && (ids.Some? ==> t.Some? && Tells(t.value, provider, script))
    case Finished => TurnDone(before, run, provider, script) && TurnRows(was, now, provider, script)
  }

  // Whether the interrupted turn had got as far as calling discovery.
  predicate AskedIn(stage: Stage, ids: Option<map<string, AttemptId>>) {
    stage.Finished? || (stage.InTurn? && ids.Some?)
  }

  /** What an interrupted turn stored: as much as the run's counters rose by when it was complete, as much as
      its telemetry tells, give or take the last posting, when discovery had been called, and otherwise
      nothing. */
  ghost predicate StoredBy(stage: Stage, before: Run, run: Run, now: Attempts, db: Db, db': Db,
                           ids: Option<map<string, AttemptId>>, t: Option<Telemetry>) {
    if stage.Finished? then RaisedAsStored(before, run, db, db') && RollupExact(run, now)
    else if stage.InTurn? && ids.Some? then t.Some? && ToldWithin(db, db', ids.value, t.value)
    else db' == db
  }

  function TelemetryIn(state: ProviderExecutionState?): Option<Telemetry>
    reads state
  {
    if state == null then None else Some(TelemetryOf(state))
  }

  // Every attempt row completed, with no error reported.
  predicate AllCompleted(attempts: Attempts) {
    forall a :: a in attempts ==>
      attempts[a].status == AttemptCompleted && attempts[a].errorCategory.None? && attempts[a].errorMessage.None?
  }

  // ---------- Turn by turn ----------

  // One turn's entries: a planning failure, or every error of an accepted result, in its order.
  ghost predicate Segment(part: seq<Failure>, provider: string, script: Script) {
    match script.plan
    case Unregistered(detail) => part == [PlanningFailure(provider, detail)]
    case Unplannable(detail) => part == [PlanningFailure(provider, detail)]
    case Planned(sources) =>
      if Answers(provider, script) then
        var errors := script.discovery.value.errors;
        |part| == |errors| && forall i :: 0 <= i < |part| ==> part[i] == SourceFailure(provider, errors[i])
      else part == []
    case _ => part == []
  }

  ghost predicate Cuts(failures: seq<Failure>, providers: seq<string>, scripts: Scripts, k: nat, cuts: seq<nat>) {
    && k <= |providers| && |cuts| == k + 1 && cuts[0] == 0 && cuts[k] == |failures|
    && forall j :: 0 <= j < k ==> CutOut(failures, providers[j], scripts(providers[j]), cuts, j)
  }

  // The `j`-th cut holds that turn's entries.
  ghost predicate CutOut(failures: seq<Failure>, provider: string, script: Script, cuts: seq<nat>, j: nat) {
    j + 1 < |cuts| && cuts[j] <= cuts[j + 1] <= |failures| && Segment(failures[cuts[j]..cuts[j + 1]], provider, script)
  }

  /** The failures are the entries of the first `k` providers' turns, one turn after the other, and no more. */
  ghost predicate InTurns(failures: seq<Failure>, providers: seq<string>, scripts: Scripts, k: nat) {
    exists cuts :: Cuts(failures, providers, scripts, k, cuts)
  }

  lemma ContributionIsSegment(provider: string, script: Script)
    ensures Segment(Contribution(provider, script), provider, script)
  {
    hide SameSources, OfProvider, StatsHold;
  }

  lemma CutsGrow(failures: seq<Failure>, part: seq<Failure>, providers: seq<string>, scripts: Scripts, k: nat, cuts: seq<nat>)
    requires k < |providers| && Cuts(failures, providers, scripts, k, cuts) && Segment(part, providers[k], scripts(providers[k]))
    ensures Cuts(failures + part, providers, scripts, k + 1, cuts + [|failures| + |part|])
  {
    hide Segment;
    var all, cuts' := failures + part, cuts + [|failures| + |part|];
    forall j | 0 <= j < k + 1
      ensures CutOut(all, providers[j], scripts(providers[j]), cuts', j)
    {
      if j < k {
        assert CutOut(failures, providers[j], scripts(providers[j]), cuts, j);
        assert all[cuts[j]..cuts[j + 1]] == failures[cuts[j]..cuts[j + 1]];
      } else {
        assert all[cuts[k]..|all|] == part;
      }
    }
  }

  lemma {:induction false} ExpectedInTurns(providers: seq<string>, scripts: Scripts, k: nat)
    requires k <= |providers|
    ensures InTurns(Expected(providers[..k], scripts), providers, scripts, k)
  {
    hide Contribution, Segment;
    if k == 0 {
      assert Cuts(Expected(providers[..0], scripts), providers, scripts, 0, [0]);
    } else {
      ExpectedInTurns(providers, scripts, k - 1);
      var before, p := Expected(providers[..k - 1], scripts), providers[k - 1];
      var cuts :| Cuts(before, providers, scripts, k - 1, cuts);
      ContributionIsSegment(p, scripts(p));
      CutsGrow(before, Contribution(p, scripts(p)), providers, scripts, k - 1, cuts);
      assert providers[..k][..k - 1] == providers[..k - 1];
    }
  }

  predicate AllDifferent(providers: seq<string>) {
    forall i, j :: 0 <= i < j < |providers| ==> providers[i] != providers[j]
  }

  // How often the errors of a provider are to be listed.
  ghost function Listings(provider: string, script: Script, e: ProviderError): nat {
    if Answers(provider, script) then multiset(script.discovery.value.errors)[e] else 0
  }

  lemma {:induction false} EachListed(errors: seq<ProviderError>, entries: seq<Failure>, provider: string, p: string, e: ProviderError)
    requires |entries| == |errors| && forall i :: 0 <= i < |entries| ==> entries[i] == SourceFailure(provider, errors[i])
    ensures multiset(entries)[SourceFailure(p, e)] == if provider == p then multiset(errors)[e] else 0
  {
    if errors != [] {
      var n := |errors| - 1;
      EachListed(errors[..n], entries[..n], provider, p, e);
      assert errors == errors[..n] + [errors[n]] && entries == entries[..n] + [entries[n]];
    }
  }

  lemma SegmentLists(part: seq<Failure>, provider: string, script: Script, p: string, e: ProviderError)
    requires Segment(part, provider, script)
    ensures multiset(part)[SourceFailure(p, e)] == if provider == p then Listings(p, script, e) else 0
  {
    hide SelfConsistent;
    if Answers(provider, script) {
      EachListed(script.discovery.value.errors, part, provider, p, e);
    }
  }

  lemma {:induction false} ExpectedLists(providers: seq<string>, scripts: Scripts, k: nat, p: string, e: ProviderError)
    requires k <= |providers| && AllDifferent(providers)
    ensures multiset(Expected(providers[..k], scripts))[SourceFailure(p, e)] == if p in providers[..k] then Listings(p, scripts(p), e) else 0
  {
    hide Contribution, Segment, Listings;
    if k > 0 {
      var q := providers[k - 1];
      ExpectedLists(providers, scripts, k - 1, p, e);
      ContributionIsSegment(q, scripts(q));
      SegmentLists(Contribution(q, scripts(q)), q, scripts(q), p, e);
      assert providers[..k][..k - 1] == providers[..k - 1] && providers[..k] == providers[..k - 1] + [q];
      assert q !in providers[..k - 1];
    }
  }

  /** Every error of every provider whose failures are listed is listed exactly as often as its result has it. */
  ghost predicate ListedOnce(failures: seq<Failure>, providers: seq<string>, scripts: Scripts, k: nat) {
    forall j, e :: 0 <= j < k && j < |providers| && Answers(providers[j], scripts(providers[j])) ==>
      multiset(failures)[SourceFailure(providers[j], e)] == multiset(scripts(providers[j]).discovery.value.errors)[e]
  }

  lemma ExpectedListedOnce(providers: seq<string>, scripts: Scripts, k: nat)
    requires k <= |providers| && AllDifferent(providers)
    ensures ListedOnce(Expected(providers[..k], scripts), providers, scripts, k)
  {
    hide Expected, SelfConsistent;
    forall j, e | 0 <= j < k && Answers(providers[j], scripts(providers[j]))
      ensures multiset(Expected(providers[..k], scripts))[SourceFailure(providers[j], e)]
           == multiset(scripts(providers[j]).discovery.value.errors)[e]
    {
      ExpectedLists(providers, scripts, k, providers[j], e);
    }
  }
}
