/** The collection run's row and its attempt rows, and every transaction the orchestrator makes on
    them.  Each may fail or be cancelled before it commits, or after. */
module CollectionRuns {
  import opened Options
  import opened CoveredText
  import opened Sums
  import opened ProviderExecution

  type AttemptId = nat

  datatype AttemptStatus = AttemptRunning | AttemptCompleted | AttemptPartial | AttemptFailed

  datatype Attempt = Attempt(
    provider: string, source: string, status: AttemptStatus, discovered: nat, inserted: nat, updated: nat,
    retryCount: int, rateLimited: bool, incompleteResults: bool,
    errorCategory: Option<string>, errorMessage: Option<string>)

  datatype RunStatus = RunRunning | RunCompleted | RunCompletedWithErrors | RunFailed

  datatype Run = Run(
    status: RunStatus, discovered: nat, inserted: nat, updated: nat, failures: seq<Failure>, providersAttempted: seq<string>)

  type Attempts = map<AttemptId, Attempt>

  const NEW_RUN := Run(RunRunning, 0, 0, 0, [], [])

  // The three counters a run rolls up from its attempts.
  datatype Counter = DiscoveredJobs | InsertedJobs | UpdatedJobs

  function OfAttempt(a: Attempt, c: Counter): nat {
    match c case DiscoveredJobs => a.discovered case InsertedJobs => a.inserted case UpdatedJobs => a.updated
  }

  function OfRun(run: Run, c: Counter): nat {
    match c case DiscoveredJobs => run.discovered case InsertedJobs => run.inserted case UpdatedJobs => run.updated
  }

  // What a provider's execution has accumulated, read off its state object.
  datatype Telemetry = Telemetry(
    discovered: map<string, nat>, inserted: map<string, nat>, updated: map<string, nat>,
    stats: map<string, SourceStats>, selected: map<string, ProviderError>, failures: seq<Failure>)

  function TelemetryOf(state: ProviderExecutionState): Telemetry
    reads state
  {
    Telemetry(state.discovered, state.inserted, state.updated, state.stats, state.selected, state.failures)
  }

  function PerSource(t: Telemetry, c: Counter): map<string, nat> {
    match c case DiscoveredJobs => t.discovered case InsertedJobs => t.inserted case UpdatedJobs => t.updated
  }

  function Column(attempts: Attempts, c: Counter): map<AttemptId, nat> {
    map a | a in attempts :: OfAttempt(attempts[a], c)
  }

  /** The run's counters are exactly the sums over its attempt rows. */
  ghost predicate RollupExact(run: Run, attempts: Attempts) {
    forall c: Counter :: OfRun(run, c) == Sum(Column(attempts, c))
  }

  predicate NoneRunning(attempts: Attempts) {
    forall a :: a in attempts ==> attempts[a].status != AttemptRunning
  }

  ghost predicate Settled(run: Run, attempts: Attempts) {
    run.status != RunRunning ==> RollupExact(run, attempts) && NoneRunning(attempts)
  }

  // No row disappears, and a row that has left `running` never changes again.
  ghost predicate TerminalKept(before: Attempts, after: Attempts) {
    forall a :: a in before ==> a in after && (before[a].status != AttemptRunning ==> after[a] == before[a])
  }

  ghost predicate History(versions: seq<Attempts>) {
    forall i, j :: 0 <= i <= j < |versions| ==> TerminalKept(versions[i], versions[j])
  }

  lemma HistoryGrows(versions: seq<Attempts>, next: Attempts)
    requires History(versions) && versions != [] && TerminalKept(versions[|versions| - 1], next)
    ensures History(versions + [next])
  {
    var all := versions + [next];
    forall i, j | 0 <= i <= j < |all|
      ensures TerminalKept(all[i], all[j])
    {
      if j == |versions| && i < j {
        assert TerminalKept(versions[i], versions[|versions| - 1]);
      }
    }
  }

  lemma ColumnUpdate(attempts: Attempts, a: AttemptId, row: Attempt, c: Counter)
    ensures Sum(Column(attempts[a := row], c))
         == Sum(Column(attempts, c)) - (if a in attempts then OfAttempt(attempts[a], c) else 0) + OfAttempt(row, c)
  {
    hide OfAttempt, Sum;
    assert Column(attempts[a := row], c) == Column(attempts, c)[a := OfAttempt(row, c)];
    SumUpdate(Column(attempts, c), a, OfAttempt(row, c));
  }

  // ---------- Rows ----------

  function NewAttempt(provider: string, source: string): Attempt {
    Attempt(provider, source, AttemptRunning, 0, 0, 0, 0, false, false, None, None)
  }

  function ResolveAttemptStatus(stat: SourceStats): AttemptStatus {
    if !stat.completed then AttemptFailed else if stat.incompleteResults then AttemptPartial else AttemptCompleted
  }

  function ResolveErrorMessage(error: Option<ProviderError>): Option<string> {
    if error.None? then None else CanonicalizeNullableText(error.value.detail)
  }

  function FinalRow(row: Attempt, t: Telemetry): Attempt
    requires row.source in t.stats
  {
    var stat, error := t.stats[row.source], Get(t.selected, row.source);
    Attempt(row.provider, row.source, ResolveAttemptStatus(stat),
            CountAt(t.discovered, row.source), CountAt(t.inserted, row.source), CountAt(t.updated, row.source),
            stat.retryCount, stat.rateLimited, stat.incompleteResults,
            if error.Some? then Some(error.value.category) else None, ResolveErrorMessage(error))
  }

  const ABORT_CATEGORY := "unknown"
  const ABORT_MESSAGE := "this provider's execution was aborted before completing"

  const NO_TELEMETRY := Telemetry(map[], map[], map[], map[], map[], [])

  // An untrusted state contributes nothing: every value falls back to its default.
  function AbortedRow(row: Attempt, t: Telemetry): Attempt {
    var stat := Get(t.stats, row.source);
    Attempt(row.provider, row.source, AttemptFailed,
            CountAt(t.discovered, row.source), CountAt(t.inserted, row.source), CountAt(t.updated, row.source),
            if stat.Some? then stat.value.retryCount else 0, stat.Some? && stat.value.rateLimited,
            stat.Some? && stat.value.incompleteResults, Some(ABORT_CATEGORY), Some(ABORT_MESSAGE))
  }

  function Get<V>(m: map<string, V>, s: string): Option<V> {
    if s in m then Some(m[s]) else None
  }

  // ---------- What the transactions do to the attempt table ----------

  // The rows `ids` are new and running, one per source; every other row is as before.
  ghost predicate Begun(before: Attempts, after: Attempts, provider: string, ids: map<string, AttemptId>) {
    && (forall a :: a in before ==> a in after && after[a] == before[a])
    && (forall s :: s in ids ==> ids[s] !in before && ids[s] in after && after[ids[s]] == NewAttempt(provider, s))
    && (forall s, s' :: s in ids && s' in ids && s != s' ==> ids[s] != ids[s'])
    && (forall a :: a in after && a !in before ==> after[a].source in ids && ids[after[a].source] == a)
    && (forall c: Counter :: Sum(Column(after, c)) == Sum(Column(before, c)))
  }

  lemma BegunNothing(before: Attempts, provider: string)
    ensures Begun(before, before, provider, map[])
  {
  }

  lemma BegunOneMore(before: Attempts, after: Attempts, provider: string, ids: map<string, AttemptId>, source: string, a: AttemptId)
    requires Begun(before, after, provider, ids) && source !in ids && a !in after
    ensures Begun(before, after[a := NewAttempt(provider, source)], provider, ids[source := a])
  {
    hide Sum, Column;
    forall c: Counter
      ensures Sum(Column(after[a := NewAttempt(provider, source)], c)) == Sum(Column(before, c))
    {
      ColumnUpdate(after, a, NewAttempt(provider, source), c);
    }
  }

  lemma BegunKeeps(before: Attempts, after: Attempts, provider: string, ids: map<string, AttemptId>)
    requires Begun(before, after, provider, ids)
    ensures TerminalKept(before, after)
  {
    hide Column, Sum;
  }

  // Whether a row is the one the ids name for its source.
  predicate Mine(a: AttemptId, row: Attempt, ids: map<string, AttemptId>) {
    row.source in ids && ids[row.source] == a
  }

  // Rows of the given ids, still running and with nothing counted yet.
  ghost predicate InFlight(attempts: Attempts, ids: map<string, AttemptId>, t: Telemetry) {
    && (forall s :: s in ids ==> ids[s] in attempts && attempts[ids[s]].source == s)
    && (forall a :: a in attempts && Mine(a, attempts[a], ids) ==>
          attempts[a].status == AttemptRunning && attempts[a].source in t.stats
          && attempts[a].discovered == attempts[a].inserted == attempts[a].updated == 0)
    && (forall c: Counter :: PerSource(t, c).Keys == ids.Keys)
  }

  // The finished rows of the sources done so far; all other rows as before.
  function Finalized(before: Attempts, ids: map<string, AttemptId>, done: set<string>, t: Telemetry): Attempts {
    map a | a in before ::
      if Mine(a, before[a], ids) && before[a].source in done && before[a].source in t.stats then FinalRow(before[a], t)
      else before[a]
  }

  lemma FinalizedNothing(before: Attempts, ids: map<string, AttemptId>, t: Telemetry)
    ensures Finalized(before, ids, {}, t) == before
  {
    hide FinalRow;
  }

  lemma FinalizedOneMore(before: Attempts, ids: map<string, AttemptId>, done: set<string>, t: Telemetry, s: string)
    requires InFlight(before, ids, t) && s in ids && s !in done
    ensures s in t.stats && ids[s] in before && before[ids[s]].source == s && Finalized(before, ids, done, t)[ids[s]] == before[ids[s]]
    ensures Finalized(before, ids, done + {s}, t)
         == Finalized(before, ids, done, t)[ids[s] := FinalRow(before[ids[s]], t)]
  {
    hide FinalRow;
    assert Mine(ids[s], before[ids[s]], ids);
  }

  // What the sources not yet done still have to add to a column.
  function Pending(t: Telemetry, done: set<string>, c: Counter): map<string, nat> {
    PerSource(t, c) - done
  }

  // The rows done so far have added to each column exactly what has left the pending counts.
  ghost predicate Moved(before: Attempts, now: Attempts, t: Telemetry, done: set<string>) {
    forall c: Counter ::
      Sum(Column(now, c)) + Sum(Pending(t, done, c)) == Sum(Column(before, c)) + Sum(PerSource(t, c))
  }

  lemma MovedNothing(before: Attempts, t: Telemetry)
    ensures Moved(before, before, t, {})
  {
    forall c: Counter ensures Pending(t, {}, c) == PerSource(t, c) {
    }
  }

  lemma MovedOneMore(before: Attempts, ids: map<string, AttemptId>, done: set<string>, t: Telemetry, s: string)
    requires InFlight(before, ids, t) && s in ids && s !in done
    requires Moved(before, Finalized(before, ids, done, t), t, done)
    ensures Moved(before, Finalized(before, ids, done + {s}, t), t, done + {s})
  {
    hide Sum, Finalized, Column;
    FinalizedOneMore(before, ids, done, t, s);
    assert Mine(ids[s], before[ids[s]], ids);
    var now, a := Finalized(before, ids, done, t), ids[s];
    forall c: Counter
      ensures Sum(Column(now[a := FinalRow(before[a], t)], c)) + Sum(Pending(t, done + {s}, c))
           == Sum(Column(before, c)) + Sum(PerSource(t, c))
    {
      ColumnUpdate(now, a, FinalRow(before[a], t), c);
      SumRemove(Pending(t, done, c), s);
      assert Pending(t, done, c) - {s} == Pending(t, done + {s}, c);
    }
  }

  lemma MovedAll(before: Attempts, now: Attempts, ids: map<string, AttemptId>, t: Telemetry)
    requires InFlight(before, ids, t) && Moved(before, now, t, ids.Keys)
    ensures forall c: Counter :: Sum(Column(now, c)) == Sum(Column(before, c)) + Sum(PerSource(t, c))
  {
    hide Column;
    forall c: Counter
      ensures Sum(Column(now, c)) == Sum(Column(before, c)) + Sum(PerSource(t, c))
    {
      assert Pending(t, ids.Keys, c) == map[];
    }
  }

  lemma FinalizedKeeps(before: Attempts, ids: map<string, AttemptId>, t: Telemetry)
    requires InFlight(before, ids, t)
    ensures TerminalKept(before, Finalized(before, ids, ids.Keys, t))
  {
    hide FinalRow;
  }

  method FinalizeRows(before: Attempts, ids: map<string, AttemptId>, t: Telemetry) returns (after: Attempts)
    requires InFlight(before, ids, t)
    ensures after == Finalized(before, ids, ids.Keys, t) && TerminalKept(before, after)
    ensures forall c: Counter :: Sum(Column(after, c)) == Sum(Column(before, c)) + Sum(PerSource(t, c))
  {
    hide InFlight, Finalized, Moved, TerminalKept, FinalRow, Sum, Column;
    after := before;
    var rest := ids.Keys;
    assert ids.Keys - rest == {};
    FinalizedNothing(before, ids, t);
    MovedNothing(before, t);
    while rest != {}
      invariant rest <= ids.Keys && after == Finalized(before, ids, ids.Keys - rest, t)
      invariant Moved(before, after, t, ids.Keys - rest)
      decreases |rest|
    {
      var s :| s in rest;
      FinalizedOneMore(before, ids, ids.Keys - rest, t, s);
      MovedOneMore(before, ids, ids.Keys - rest, t, s);
      assert ids.Keys - rest + {s} == ids.Keys - (rest - {s});
      after := after[ids[s] := FinalRow(before[ids[s]], t)];
      rest := rest - {s};
    }
    assert ids.Keys - rest == ids.Keys;
    MovedAll(before, after, ids, t);
    FinalizedKeeps(before, ids, t);
  }

  // The rows of `done` that were still running, failed; all other rows as before.
  function Aborted(before: Attempts, done: set<AttemptId>, t: Telemetry): Attempts {
    map a | a in before ::
      if a in done && before[a].status == AttemptRunning then AbortedRow(before[a], t) else before[a]
  }

  lemma AbortedKeeps(before: Attempts, done: set<AttemptId>, t: Telemetry)
    ensures TerminalKept(before, Aborted(before, done, t))
  {
    hide AbortedRow;
  }

  // What an execution counted for each of its sources.
  function CountsFor(ids: map<string, AttemptId>, sources: set<string>, t: Telemetry, c: Counter): map<string, nat> {
    map s | s in sources && s in ids :: CountAt(PerSource(t, c), s)
  }

  function IdsFor(ids: map<string, AttemptId>, sources: set<string>): set<AttemptId> {
    set s | s in sources && s in ids :: ids[s]
  }

  lemma AbortedOneMore(before: Attempts, done: set<AttemptId>, a: AttemptId, t: Telemetry)
    requires a in before && a !in done && before[a].status == AttemptRunning
    ensures Aborted(before, done + {a}, t) == Aborted(before, done, t)[a := AbortedRow(before[a], t)]
    ensures Aborted(before, done, t)[a] == before[a]
  {
    hide AbortedRow;
  }

  // Failing begun rows raises each column by what the telemetry counts for their sources.
  lemma {:induction false} AbortedMoves(was: Attempts, now: Attempts, provider: string, ids: map<string, AttemptId>, sources: set<string>,
                                        t: Telemetry, c: Counter)
    requires Begun(was, now, provider, ids) && sources <= ids.Keys
    ensures Sum(Column(Aborted(now, IdsFor(ids, sources), t), c)) == Sum(Column(now, c)) + Sum(CountsFor(ids, sources, t, c))
    decreases sources
  {
    hide Sum, Column, Aborted, CountAt;
    if s :| s in sources {
      AbortedMoves(was, now, provider, ids, sources - {s}, t, c);
      AbortedMovesOne(was, now, provider, ids, sources - {s}, s, t, c);
      assert sources - {s} + {s} == sources;
    } else {
      AbortedNothing(now, t);
      assert IdsFor(ids, sources) == {} && CountsFor(ids, sources, t, c) == map[];
    }
  }

  lemma AbortedMovesOne(was: Attempts, now: Attempts, provider: string, ids: map<string, AttemptId>, rest: set<string>, s: string,
                        t: Telemetry, c: Counter)
    requires Begun(was, now, provider, ids) && rest <= ids.Keys && s in ids && s !in rest
    ensures Sum(Column(Aborted(now, IdsFor(ids, rest + {s}), t), c))
         == Sum(Column(Aborted(now, IdsFor(ids, rest), t), c)) + CountAt(PerSource(t, c), s)
    ensures Sum(CountsFor(ids, rest + {s}, t, c)) == Sum(CountsFor(ids, rest, t, c)) + CountAt(PerSource(t, c), s)
  {
    hide Sum, Column, Aborted, CountAt, AbortedRow, OfAttempt;
    assert ids[s] !in IdsFor(ids, rest) && IdsFor(ids, rest) + {ids[s]} == IdsFor(ids, rest + {s});
    AbortedOneMore(now, IdsFor(ids, rest), ids[s], t);
    ColumnUpdate(Aborted(now, IdsFor(ids, rest), t), ids[s], AbortedRow(now[ids[s]], t), c);
    AbortedCounts(now[ids[s]], t, c);
    BegunCounts(provider, s, c);
    SumRemove(CountsFor(ids, rest + {s}, t, c), s);
    assert CountsFor(ids, rest + {s}, t, c) - {s} == CountsFor(ids, rest, t, c);
  }

  lemma BegunCounts(provider: string, source: string, c: Counter)
    ensures OfAttempt(NewAttempt(provider, source), c) == 0
  {
  }

  lemma AbortedNothing(now: Attempts, t: Telemetry)
    ensures Aborted(now, {}, t) == now
  {
  }

  lemma AbortedCounts(row: Attempt, t: Telemetry, c: Counter)
    ensures OfAttempt(AbortedRow(row, t), c) == CountAt(PerSource(t, c), row.source)
  {
  }

  // Failing all that is running, when that is exactly what was begun.
  lemma AbortedMovesAll(was: Attempts, now: Attempts, provider: string, ids: map<string, AttemptId>, t: Telemetry, c: Counter)
    requires Begun(was, now, provider, ids) && Running(now) == ids.Values
    ensures PerSource(t, c).Keys == ids.Keys ==>
      Sum(Column(Aborted(now, Running(now), t), c)) == Sum(Column(was, c)) + Sum(PerSource(t, c))
    ensures PerSource(t, c) == map[] ==> Sum(Column(Aborted(now, Running(now), t), c)) == Sum(Column(was, c))
  {
    hide Sum, Column, Aborted;
    AbortedMoves(was, now, provider, ids, ids.Keys, t, c);
    assert IdsFor(ids, ids.Keys) == ids.Values;
    if PerSource(t, c).Keys == ids.Keys {
      assert CountsFor(ids, ids.Keys, t, c) == PerSource(t, c);
    }
    if PerSource(t, c) == map[] {
      SumZero(CountsFor(ids, ids.Keys, t, c));
    }
  }

  method AbortRows(before: Attempts, running: set<AttemptId>, t: Telemetry) returns (after: Attempts)
    ensures after == Aborted(before, running, t) && TerminalKept(before, after)
  {
    hide AbortedRow, TerminalKept;
    after := before;
    var rest := running;
    assert running - rest == {};
    while rest != {}
      invariant rest <= running && after == Aborted(before, running - rest, t)
      decreases |rest|
    {
      var a :| a in rest;
      if a in after && after[a].status == AttemptRunning {
        after := after[a := AbortedRow(after[a], t)];
      }
      rest := rest - {a};
    }
    assert running - rest == running;
    AbortedKeeps(before, running, t);
  }

  function Running(attempts: Attempts): set<AttemptId> {
    set a | a in attempts && attempts[a].status == AttemptRunning
  }

  function TelemetryIfAny(state: ProviderExecutionState?): Telemetry
    reads state
  {
    if state == null then NO_TELEMETRY else TelemetryOf(state)
  }

  // The three transactions' whole effect on the run's row and its attempt rows.
  ghost predicate BegunBy(before: Run, was: Attempts, run: Run, now: Attempts, provider: string, sources: seq<string>,
                          ids: map<string, AttemptId>) {
    && run == before.(providersAttempted := before.providersAttempted + [provider])
    && Begun(was, now, provider, ids)
    && forall s :: s in ids <==> s in sources
  }

  ghost predicate FinalizedBy(before: Run, was: Attempts, run: Run, now: Attempts, ids: map<string, AttemptId>, t: Telemetry) {
    && now == Finalized(was, ids, ids.Keys, t)
    && run.status == before.status && run.providersAttempted == before.providersAttempted
    && run.failures == before.failures + t.failures
    && (forall c: Counter :: OfRun(run, c) == OfRun(before, c) + Sum(PerSource(t, c)))
    && (forall c: Counter :: Sum(Column(now, c)) == Sum(Column(was, c)) + Sum(PerSource(t, c)))
  }

  ghost predicate AbortedBy(before: Run, was: Attempts, run: Run, now: Attempts, running: set<AttemptId>, t: Telemetry) {
    run == before.(failures := before.failures + t.failures) && now == Aborted(was, running, t)
  }

  /** Source by source, the rows show the counts of the state, and the run's counters have risen by their sums. */
  ghost predicate RowsCarry(before: Run, run: Run, attempts: Attempts, ids: map<string, AttemptId>, state: ProviderExecutionState)
    reads state
  {
    && (forall s :: s in ids ==>
          && ids[s] in attempts && s in state.discovered && s in state.inserted && s in state.updated
          && attempts[ids[s]].discovered == state.discovered[s]
          && attempts[ids[s]].inserted == state.inserted[s] && attempts[ids[s]].updated == state.updated[s])
    && run.discovered == before.discovered + Sum(state.discovered)
    && run.inserted == before.inserted + Sum(state.inserted) && run.updated == before.updated + Sum(state.updated)
    && run.failures == before.failures + state.failures
  }

  /** Rows failed with a state to tell of them show its counts. */
  ghost predicate AbortedCarry(was: Attempts, now: Attempts, running: set<AttemptId>, state: ProviderExecutionState)
    reads state
  {
    forall a :: a in running && a in was && was[a].status == AttemptRunning ==>
      && a in now && now[a].status == AttemptFailed && now[a].source == was[a].source
      && now[a].discovered == CountAt(state.discovered, was[a].source)
      && now[a].inserted == CountAt(state.inserted, was[a].source) && now[a].updated == CountAt(state.updated, was[a].source)
  }

  lemma FinalizedCarry(before: Run, was: Attempts, run: Run, now: Attempts, ids: map<string, AttemptId>, state: ProviderExecutionState)
    requires InFlight(was, ids, TelemetryOf(state)) && FinalizedBy(before, was, run, now, ids, TelemetryOf(state))
    ensures RowsCarry(before, run, now, ids, state)
  {
    hide Column, Sum, ResolveAttemptStatus, ResolveErrorMessage;
    var t := TelemetryOf(state);
    forall s | s in ids
      ensures ids[s] in now && now[ids[s]] == FinalRow(was[ids[s]], t) && was[ids[s]].source == s
    {
      assert Mine(ids[s], was[ids[s]], ids);
    }
    assert OfRun(run, DiscoveredJobs) == OfRun(before, DiscoveredJobs) + Sum(PerSource(t, DiscoveredJobs));
    assert OfRun(run, InsertedJobs) == OfRun(before, InsertedJobs) + Sum(PerSource(t, InsertedJobs));
    assert OfRun(run, UpdatedJobs) == OfRun(before, UpdatedJobs) + Sum(PerSource(t, UpdatedJobs));
    CountedSources(was, ids, t);
  }

  lemma CountedSources(was: Attempts, ids: map<string, AttemptId>, t: Telemetry)
    requires InFlight(was, ids, t)
    ensures t.discovered.Keys == t.inserted.Keys == t.updated.Keys == ids.Keys
  {
    assert PerSource(t, DiscoveredJobs).Keys == PerSource(t, InsertedJobs).Keys == PerSource(t, UpdatedJobs).Keys == ids.Keys;
  }

  lemma AbortedShow(was: Attempts, running: set<AttemptId>, state: ProviderExecutionState)
    ensures AbortedCarry(was, Aborted(was, running, TelemetryOf(state)), running, state)
  {
  }

  // ---------- The tables ----------

  class RunStore {
    var run: Run
    var attempts: Attempts
    ghost var versions: seq<Attempts>  // the attempt table after every commit so far

    ghost predicate Valid()
      reads this
    {
      versions != [] && versions[|versions| - 1] == attempts && History(versions)
    }

    // The initialization transaction, which creates the run's row.
    constructor ()
      ensures Valid() && run == NEW_RUN && attempts == map[]
    {
      run, attempts, versions := NEW_RUN, map[], [map[]];
    }

    method Commit(run': Run, attempts': Attempts)
      requires Valid() && TerminalKept(attempts, attempts')
      modifies this
      ensures Valid() && run == run' && attempts == attempts' && old(versions) <= versions
    {
      hide TerminalKept, History;
      HistoryGrows(versions, attempts');
      run, attempts := run', attempts';
      versions := versions + [attempts'];
    }

    method AppendPlanningFailure(provider: string, detail: string) returns (ok: bool)
      requires Valid()
      modifies this
      ensures Valid() && old(versions) <= versions && attempts == old(attempts)
      ensures run == old(run) || run == old(run).(failures := old(run.failures) + [PlanningFailure(provider, detail)])
      ensures ok ==> run.failures == old(run.failures) + [PlanningFailure(provider, detail)]
    {
      var fault := Await();
      if fault != BeforeCommit {
        Commit(run.(failures := run.failures + [PlanningFailure(provider, detail)]), attempts);
      }
      ok := fault == Clear;
    }

    /** One transaction: the provider is listed as attempted and gets one running row per source.
        Cancelled after the commit, the caller is left without the ids. */
    method BeginProviderAttempt(provider: string, sources: seq<string>) returns (ids: Option<map<string, AttemptId>>, ghost rows: map<string, AttemptId>)
      requires Valid()
      modifies this
      ensures Valid() && old(versions) <= versions
      ensures (run == old(run) && attempts == old(attempts))
              || BegunBy(old(run), old(attempts), run, attempts, provider, sources, rows)
      ensures ids.Some? ==> ids.value == rows && BegunBy(old(run), old(attempts), run, attempts, provider, sources, rows)
    {
      hide Begun, TerminalKept, History;
      rows := map[];
      var pending, mine: map<string, AttemptId> := attempts, map[];
      BegunNothing(attempts, provider);
      for i := 0 to |sources|
        modifies {}
        invariant Begun(attempts, pending, provider, mine)
        invariant forall s :: s in mine <==> s in sources[..i]
      {
        // The unique constraint on run, provider and source.
        if sources[i] in mine || exists a :: a in pending && pending[a].provider == provider && pending[a].source == sources[i] {
          return None, rows;
        }
        var a := FreshId(pending.Keys);
        BegunOneMore(attempts, pending, provider, mine, sources[i], a);
        pending := pending[a := NewAttempt(provider, sources[i])];
        mine := mine[sources[i] := a];
      }
      assert sources[..|sources|] == sources;
      var fault := Await();
      if fault == BeforeCommit {
        return None, rows;
      }
      BegunKeeps(attempts, pending, provider, mine);
      rows := mine;
      Commit(run.(providersAttempted := run.providersAttempted + [provider]), pending);
      ids := if fault == Clear then Some(mine) else None;
    }

    /** One transaction: the provider's rows are finalized, the run's counters rise by its deltas and
        its reported errors are appended. */
    method FinalizeProviderSuccess(ids: map<string, AttemptId>, state: ProviderExecutionState) returns (ok: bool)
      requires Valid() && InFlight(attempts, ids, TelemetryOf(state))
      modifies this
      ensures Valid() && old(versions) <= versions
      ensures (run == old(run) && attempts == old(attempts))
              || FinalizedBy(old(run), old(attempts), run, attempts, ids, TelemetryOf(state))
      ensures ok ==> FinalizedBy(old(run), old(attempts), run, attempts, ids, TelemetryOf(state))
      ensures (run == old(run) && attempts == old(attempts)) || RowsCarry(old(run), run, attempts, ids, state)
      ensures ok ==> RowsCarry(old(run), run, attempts, ids, state)
    {
      hide InFlight, Finalized, TerminalKept, History, RowsCarry;
      var t := TelemetryOf(state);
      var discovered := SumValues(state.discovered);
      var inserted := SumValues(state.inserted);
      var updated := SumValues(state.updated);
      var pending := FinalizeRows(attempts, ids, t);
      var fault := Await();
      if fault != BeforeCommit {
        Commit(run.(discovered := run.discovered + discovered, inserted := run.inserted + inserted,
                    updated := run.updated + updated, failures := run.failures + state.failures), pending);
        FinalizedCarry(old(run), old(attempts), run, attempts, ids, state);
      }
      ok := fault == Clear;
    }

    // The durable truth about what is in flight; None when the query itself fails.
    method FetchRunningAttempts() returns (running: Option<set<AttemptId>>)
      ensures running.Some? ==> running.value == Running(attempts)
    {
      var fault := Await();
      running := if fault == Clear then Some(Running(attempts)) else None;
    }

    // Only ever touches rows still running; `state` is null unless it provably belongs to them.
    method FinalizeRunningAttemptsAborted(running: set<AttemptId>, state: ProviderExecutionState?) returns (ok: bool)
      requires Valid()
      modifies this
      ensures Valid() && old(versions) <= versions
      ensures (run == old(run) && attempts == old(attempts))
              || AbortedBy(old(run), old(attempts), run, attempts, running, TelemetryIfAny(state))
      ensures ok ==> AbortedBy(old(run), old(attempts), run, attempts, running, TelemetryIfAny(state))
      ensures state != null ==>
        (run == old(run) && attempts == old(attempts))
        || (AbortedCarry(old(attempts), attempts, running, state) && run.failures == old(run.failures) + state.failures)
      ensures ok && state != null ==>
        AbortedCarry(old(attempts), attempts, running, state) && run.failures == old(run.failures) + state.failures
    {
      hide Aborted, TerminalKept, History, AbortedCarry;
      var pending := AbortRows(attempts, running, TelemetryIfAny(state));
      if state != null {
        AbortedShow(attempts, running, state);
      }
      var fault := Await();
      if fault != BeforeCommit {
        Commit(run.(failures := run.failures + TelemetryIfAny(state).failures), pending);
      }
      ok := fault == Clear;
    }

    method FinishRun(status: RunStatus) returns (ok: bool)
      requires Valid()
      modifies this
      ensures Valid() && old(versions) <= versions && attempts == old(attempts)
      ensures run == old(run) || run == old(run).(status := status)
      ensures ok ==> run == old(run).(status := status)
    {
      hide TerminalKept, History;
      KeptAsIs(attempts);
      var fault := Await();
      if fault != BeforeCommit {
        Commit(run.(status := status), attempts);
      }
      ok := fault == Clear;
    }

    /** The aborted run's rollup is recomputed from every attempt row, in the same transaction. */
    method RecomputeAndFail() returns (ok: bool)
      requires Valid()
      modifies this
      ensures Valid() && old(versions) <= versions && attempts == old(attempts)
      ensures run == old(run) || (RollupExact(run, attempts) && run.status == RunFailed)
      ensures ok ==> RollupExact(run, attempts) && run.status == RunFailed
      ensures run.failures == old(run.failures) && run.providersAttempted == old(run.providersAttempted)
    {
      hide TerminalKept, History;
      KeptAsIs(attempts);
      var discovered := SumValues(Column(attempts, DiscoveredJobs));
      var inserted := SumValues(Column(attempts, InsertedJobs));
      var updated := SumValues(Column(attempts, UpdatedJobs));
      var fault := Await();
      if fault != BeforeCommit {
        Commit(Run(RunFailed, discovered, inserted, updated, run.failures, run.providersAttempted), attempts);
      }
      ok := fault == Clear;
    }
  }

  lemma KeptAsIs(attempts: Attempts)
    ensures TerminalKept(attempts, attempts)
  {
  }
}
