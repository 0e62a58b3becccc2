/** The migration-graph check: its findings, one by one, and when there are none. */
module MigrationChain {
  import opened Options

  type Revision = string
  datatype Parent = Baseline | One(revision: Revision) | Several(revisions: seq<Revision>)
  datatype Migration = Migration(revision: Revision, down: Parent)

  datatype Finding =
    | WrongHeads(heads: seq<Revision>)
    | MergeRevision(revision: Revision, parents: seq<Revision>)
    | MissingParent(revision: Revision, parent: Revision)
    | WrongBaselines(baselines: seq<Revision>)
    | SharedParent(down: Parent, owners: seq<Revision>)
    | Disconnected(unreachable: set<Revision>, head: Revision)

  // ---------- What the graph is ----------

  ghost function Ids(ms: seq<Migration>): set<Revision> {
    set m | m in ms :: m.revision
  }

  function Baselines(ms: seq<Migration>): seq<Revision> {
    if ms == [] then []
    else Baselines(ms[..|ms| - 1]) + (if ms[|ms| - 1].down.Baseline? then [ms[|ms| - 1].revision] else [])
  }

  function Owners(ms: seq<Migration>, down: Parent): seq<Revision> {
    if ms == [] then []
    else Owners(ms[..|ms| - 1], down) + (if ms[|ms| - 1].down == down then [ms[|ms| - 1].revision] else [])
  }

  // Each revision's single parent; a repeated id keeps the last.
  function Parents(ms: seq<Migration>): map<Revision, Revision> {
    if ms == [] then map[]
    else
      var m := ms[|ms| - 1];
      if m.down.One? then Parents(ms[..|ms| - 1])[m.revision := m.down.revision] else Parents(ms[..|ms| - 1])
  }

  function Parent1(parents: map<Revision, Revision>, r: Revision): Option<Revision> {
    if r in parents then Some(parents[r]) else None
  }

  // The revision `n` parents up, if the walk gets that far.
  function Ancestor(parents: map<Revision, Revision>, r: Revision, n: nat): Option<Revision> {
    if n == 0 then Some(r)
    else
      var below := Ancestor(parents, r, n - 1);
      if below.None? then None else Parent1(parents, below.value)
  }

  ghost predicate Reaches(parents: map<Revision, Revision>, from: Revision, to: Revision) {
    exists n: nat :: Ancestor(parents, from, n) == Some(to)
  }

  ghost predicate IsUnreachable(ms: seq<Migration>, head: Revision, u: set<Revision>) {
    forall r :: r in u <==>
      r in Ids(ms) && !Reaches(Parents(ms), head, r) && !(exists m :: m in ms && m.revision == r && m.down.Several?)
  }

  /** When each finding is due. */
  ghost predicate Due(heads: seq<Revision>, ms: seq<Migration>, f: Finding) {
    match f
    case WrongHeads(hs) => |heads| != 1 && hs == heads
    case MergeRevision(r, parents) => Migration(r, Several(parents)) in ms
    case MissingParent(r, parent) => Migration(r, One(parent)) in ms && parent !in Ids(ms)
    case WrongBaselines(bs) => bs == Baselines(ms) && |bs| != 1
    case SharedParent(down, owners) => owners == Owners(ms, down) && |owners| > 1
    case Disconnected(u, head) => heads == [head] && u != {} && IsUnreachable(ms, head, u)
  }

  predicate DistinctIds(ms: seq<Migration>) {
    forall i, j :: 0 <= i < j < |ms| ==> ms[i].revision != ms[j].revision
  }

  predicate Distinct(chain: seq<Revision>) {
    forall i, j :: 0 <= i < j < |chain| ==> chain[i] != chain[j]
  }

  /** One line from the single head down to the baseline, every migration on it, each with the next
      one as its parent. */
  ghost predicate Line(heads: seq<Revision>, ms: seq<Migration>, chain: seq<Revision>) {
    && chain != [] && heads == [chain[0]] && Distinct(chain)
    && (forall r :: r in chain <==> r in Ids(ms))
    && (forall m, i :: m in ms && 0 <= i < |chain| && chain[i] == m.revision ==> m.down == NextOn(chain, i))
  }

  function NextOn(chain: seq<Revision>, i: nat): Parent
    requires i < |chain|
  {
    if i + 1 < |chain| then One(chain[i + 1]) else Baseline
  }

  ghost predicate Linear(heads: seq<Revision>, ms: seq<Migration>) {
    exists chain :: Line(heads, ms, chain)
  }

  // ---------- Facts about the three tables ----------

  lemma {:induction false} BaselinesAre(ms: seq<Migration>, r: Revision)
    ensures r in Baselines(ms) <==> Migration(r, Baseline) in ms
  {
    if ms != [] {
      BaselinesAre(ms[..|ms| - 1], r);
      assert ms == ms[..|ms| - 1] + [ms[|ms| - 1]];
    }
  }

  lemma {:induction false} OwnersAre(ms: seq<Migration>, down: Parent, r: Revision)
    ensures r in Owners(ms, down) <==> Migration(r, down) in ms
  {
    if ms != [] {
      OwnersAre(ms[..|ms| - 1], down, r);
      assert ms == ms[..|ms| - 1] + [ms[|ms| - 1]];
    }
  }

  lemma {:induction false} OwnersDistinct(ms: seq<Migration>, down: Parent)
    requires DistinctIds(ms)
    ensures Distinct(Owners(ms, down))
  {
    if ms != [] {
      var n := |ms| - 1;
      OwnersDistinct(ms[..n], down);
      OwnersAre(ms[..n], down, ms[n].revision);
    }
  }

  lemma BaselinesAreOwners(ms: seq<Migration>)
    ensures Baselines(ms) == Owners(ms, Baseline)
  {
    if ms != [] {
      BaselinesAreOwners(ms[..|ms| - 1]);
    }
  }

  // With distinct ids the parent table says exactly what the migrations say.
  lemma {:induction false} ParentsAre(ms: seq<Migration>, m: Migration)
    requires DistinctIds(ms) && m in ms
    ensures Parent1(Parents(ms), m.revision) == if m.down.One? then Some(m.down.revision) else None
  {
    var n := |ms| - 1;
    assert ms == ms[..n] + [ms[n]];
    if m in ms[..n] {
      ParentsAre(ms[..n], m);
    } else {
      ParentsKnown(ms[..n], m.revision);
    }
  }

  lemma {:induction false} ParentsKnown(ms: seq<Migration>, r: Revision)
    ensures r in Parents(ms) ==> Migration(r, One(Parents(ms)[r])) in ms
  {
    if ms != [] {
      ParentsKnown(ms[..|ms| - 1], r);
      assert ms == ms[..|ms| - 1] + [ms[|ms| - 1]];
    }
  }

  /** A way down the migrations, each the next one's child. */
  predicate IsPath(ms: seq<Migration>, path: seq<Revision>, from: Revision, to: Revision) {
    && path != [] && path[0] == from && path[|path| - 1] == to
    && forall i :: 0 <= i < |path| - 1 ==> Migration(path[i], One(path[i + 1])) in ms
  }

  lemma {:induction false} AncestorHasPath(ms: seq<Migration>, from: Revision, n: nat) returns (path: seq<Revision>)
    requires Ancestor(Parents(ms), from, n).Some?
    ensures IsPath(ms, path, from, Ancestor(Parents(ms), from, n).value)
  {
    path := [from];
    if n > 0 {
      var front := AncestorHasPath(ms, from, n - 1);
      ParentsKnown(ms, front[|front| - 1]);
      path := front + [Ancestor(Parents(ms), from, n).value];
    }
  }

  lemma {:induction false} PathIsAncestor(ms: seq<Migration>, path: seq<Revision>, from: Revision, to: Revision)
    requires DistinctIds(ms) && IsPath(ms, path, from, to)
    ensures Ancestor(Parents(ms), from, |path| - 1) == Some(to)
    decreases |path|
  {
    if |path| > 1 {
      var n := |path| - 1;
      var m := Migration(path[n - 1], One(path[n - 1 + 1]));
      PathIsAncestor(ms, path[..n], from, path[n - 1]);
      assert m in ms;
      ParentsAre(ms, m);
    }
  }

  /** With distinct ids a revision is reached exactly when a path of migrations leads down to it. */
  lemma ReachedByPath(ms: seq<Migration>, from: Revision, to: Revision)
    requires DistinctIds(ms)
    ensures Reaches(Parents(ms), from, to) <==> exists path :: IsPath(ms, path, from, to)
  {
    if Reaches(Parents(ms), from, to) {
      var n: nat :| Ancestor(Parents(ms), from, n) == Some(to);
      var path := AncestorHasPath(ms, from, n);
    }
    if path :| IsPath(ms, path, from, to) {
      PathIsAncestor(ms, path, from, to);
    }
  }

  // ---------- A line has no findings ----------

  lemma {:induction false} LineIsWalked(heads: seq<Revision>, ms: seq<Migration>, chain: seq<Revision>, i: nat)
    requires DistinctIds(ms) && Line(heads, ms, chain) && i < |chain|
    ensures Ancestor(Parents(ms), chain[0], i) == Some(chain[i])
  {
    if i > 0 {
      LineIsWalked(heads, ms, chain, i - 1);
      assert chain[i - 1] in Ids(ms);
      var m :| m in ms && m.revision == chain[i - 1];
      ParentsAre(ms, m);
    }
  }

  lemma PlaceOf(heads: seq<Revision>, ms: seq<Migration>, chain: seq<Revision>, m: Migration) returns (i: nat)
    requires Line(heads, ms, chain) && m in ms
    ensures i < |chain| && chain[i] == m.revision && m.down == NextOn(chain, i)
  {
    assert m.revision in Ids(ms) && m.revision in chain;
    i :| 0 <= i < |chain| && chain[i] == m.revision;
  }

  // Two migrations on a line never have the same parent.
  lemma LineSharesNothing(heads: seq<Revision>, ms: seq<Migration>, chain: seq<Revision>, down: Parent)
    requires DistinctIds(ms) && Line(heads, ms, chain)
    ensures |Owners(ms, down)| <= 1
  {
    var owners := Owners(ms, down);
    OwnersDistinct(ms, down);
    if |owners| > 1 {
      OwnersAre(ms, down, owners[0]);
      OwnersAre(ms, down, owners[1]);
      var i := PlaceOf(heads, ms, chain, Migration(owners[0], down));
      var j := PlaceOf(heads, ms, chain, Migration(owners[1], down));
    }
  }

  lemma LineHasBaseline(heads: seq<Revision>, ms: seq<Migration>, chain: seq<Revision>)
    requires DistinctIds(ms) && Line(heads, ms, chain)
    ensures |Baselines(ms)| == 1
  {
    var last := chain[|chain| - 1];
    assert last in Ids(ms);
    var m :| m in ms && m.revision == last;
    var i := PlaceOf(heads, ms, chain, m);
    assert m == Migration(last, Baseline);
    BaselinesAre(ms, last);
    BaselinesAreOwners(ms);
    LineSharesNothing(heads, ms, chain, Baseline);
  }

  lemma LineIsClean(heads: seq<Revision>, ms: seq<Migration>, f: Finding)
    requires DistinctIds(ms) && Linear(heads, ms)
    ensures !Due(heads, ms, f)
  {
    var chain :| Line(heads, ms, chain);
    match f
    case WrongHeads(_) =>
    case MergeRevision(r, parents) =>
      OnLine(heads, ms, chain, Migration(r, Several(parents)));
    case MissingParent(r, parent) =>
      OnLine(heads, ms, chain, Migration(r, One(parent)));
    case WrongBaselines(_) =>
      LineHasBaseline(heads, ms, chain);
    case SharedParent(down, _) =>
      LineSharesNothing(heads, ms, chain, down);
    case Disconnected(u, head) =>
      forall r | r in Ids(ms)
        ensures Reaches(Parents(ms), chain[0], r)
      {
        var i :| 0 <= i < |chain| && chain[i] == r;
        LineIsWalked(heads, ms, chain, i);
      }
  }

  lemma OnLine(heads: seq<Revision>, ms: seq<Migration>, chain: seq<Revision>, m: Migration)
    requires Line(heads, ms, chain)
    ensures m in ms ==> !m.down.Several? && (m.down.One? ==> m.down.revision in Ids(ms))
  {
    if m in ms {
      var i := PlaceOf(heads, ms, chain, m);
      assert i + 1 < |chain| ==> chain[i + 1] in chain;
    }
  }

  // ---------- No findings make a line ----------

  ghost predicate Clean(heads: seq<Revision>, ms: seq<Migration>) {
    forall f :: !Due(heads, ms, f)
  }

  lemma CleanFacts(heads: seq<Revision>, ms: seq<Migration>)
    requires Clean(heads, ms)
    ensures |heads| == 1 && |Baselines(ms)| == 1
    ensures forall m :: m in ms ==> !m.down.Several? && (m.down.One? ==> m.down.revision in Ids(ms))
    ensures forall r :: r in Ids(ms) ==> Reaches(Parents(ms), heads[0], r)
  {
    hide Reaches, Parents, Ids;
    assert !Due(heads, ms, WrongHeads(heads));
    assert !Due(heads, ms, WrongBaselines(Baselines(ms)));
    forall m | m in ms
      ensures !m.down.Several? && (m.down.One? ==> m.down.revision in Ids(ms))
    {
      var f := match m.down
        case Several(parents) => MergeRevision(m.revision, parents)
        case One(parent) => MissingParent(m.revision, parent)
        case Baseline => WrongHeads(heads);
      assert !Due(heads, ms, f);
    }
    var u := set r | r in Ids(ms) && !Reaches(Parents(ms), heads[0], r);
    assert heads == [heads[0]] && !Due(heads, ms, Disconnected(u, heads[0]));
    assert forall r :: r in Ids(ms) && !Reaches(Parents(ms), heads[0], r) ==> r in u;
  }

  // Once the walk has ended it stays ended.
  lemma {:induction false} WalkEnded(parents: map<Revision, Revision>, r: Revision, n: nat, m: nat)
    requires n <= m && Ancestor(parents, r, n).None?
    ensures Ancestor(parents, r, m).None?
  {
    if n < m {
      WalkEnded(parents, r, n, m - 1);
    }
  }

  // Two visits to the same revision continue alike.
  lemma {:induction false} WalkRepeats(parents: map<Revision, Revision>, r: Revision, i: nat, j: nat, k: nat)
    requires Ancestor(parents, r, i) == Ancestor(parents, r, j)
    ensures Ancestor(parents, r, i + k) == Ancestor(parents, r, j + k)
  {
    if k > 0 {
      WalkRepeats(parents, r, i, j, k - 1);
    }
  }

  // The walk that ends right after `n` steps, as a sequence.
  ghost function Walk(parents: map<Revision, Revision>, r: Revision, n: nat): (chain: seq<Revision>)
    requires Ancestor(parents, r, n).Some?
    ensures |chain| == n + 1 && chain[0] == r
    ensures forall i :: 0 <= i <= n ==> Ancestor(parents, r, i) == Some(chain[i])
  {
    if n == 0 then [r] else Walk(parents, r, n - 1) + [Ancestor(parents, r, n).value]
  }

  lemma WalkIsDistinct(parents: map<Revision, Revision>, r: Revision, n: nat)
    requires Ancestor(parents, r, n).Some? && Ancestor(parents, r, n + 1).None?
    ensures Distinct(Walk(parents, r, n))
  {
    var chain := Walk(parents, r, n);
    forall i, j | 0 <= i < j < |chain|
      ensures chain[i] != chain[j]
    {
      if chain[i] == chain[j] {
        WalkRepeats(parents, r, i, j, n + 1 - j);
        WalkEnded(parents, r, i + (n + 1 - j), n);
      }
    }
  }

  lemma WalkCovers(parents: map<Revision, Revision>, h: Revision, n: nat, r: Revision)
    requires Ancestor(parents, h, n).Some? && Ancestor(parents, h, n + 1).None? && Reaches(parents, h, r)
    ensures r in Walk(parents, h, n)
  {
    var m: nat :| Ancestor(parents, h, m) == Some(r);
    if m > n {
      WalkEnded(parents, h, n + 1, m);
    }
    assert Walk(parents, h, n)[m] == r;
  }

  lemma {:induction false} WalkStaysInside(ms: seq<Migration>, h: Revision, n: nat, i: nat)
    requires Ancestor(Parents(ms), h, n).Some? && i <= n && (n > 0 || h in Ids(ms))
    requires forall m :: m in ms ==> (m.down.One? ==> m.down.revision in Ids(ms))
    ensures Walk(Parents(ms), h, n)[i] in Ids(ms)
  {
    var chain := Walk(Parents(ms), h, n);
    if i > 0 {
      ParentsKnown(ms, chain[i - 1]);
      assert Ancestor(Parents(ms), h, i) == Parent1(Parents(ms), chain[i - 1]);
    } else if n > 0 {
      ParentsKnown(ms, h);
      assert Ancestor(Parents(ms), h, 1) == Some(chain[1]);
      assert Migration(h, One(Parents(ms)[h])).revision in Ids(ms);
    }
  }

  lemma CleanIsLinear(heads: seq<Revision>, ms: seq<Migration>)
    requires DistinctIds(ms) && Clean(heads, ms)
    ensures Linear(heads, ms)
  {
    hide Clean;
    CleanFacts(heads, ms);
    var parents, h := Parents(ms), heads[0];
    var base := Baselines(ms)[0];
    BaselinesAre(ms, base);
    var bottom := Migration(base, Baseline);
    assert bottom in ms && bottom.revision in Ids(ms);
    var n: nat :| Ancestor(parents, h, n) == Some(base);
    ParentsAre(ms, bottom);
    assert Ancestor(parents, h, n + 1).None?;
    var chain := Walk(parents, h, n);
    WalkIsDistinct(parents, h, n);
    forall r
      ensures r in chain <==> r in Ids(ms)
    {
      if r in Ids(ms) {
        WalkCovers(parents, h, n, r);
      }
      if r in chain {
        var i :| 0 <= i < |chain| && chain[i] == r;
        WalkStaysInside(ms, h, n, i);
      }
    }
    forall m, i | m in ms && 0 <= i < |chain| && chain[i] == m.revision
      ensures m.down == NextOn(chain, i)
    {
      ParentsAre(ms, m);
      assert Ancestor(parents, h, i + 1) == Parent1(parents, chain[i]);
    }
    assert Line(heads, ms, chain);
  }

  /** For distinct revision ids no finding is due exactly when the migrations form one line from the
      single head to the single baseline. */
  lemma CleanExactlyWhenLinear(heads: seq<Revision>, ms: seq<Migration>)
    requires DistinctIds(ms)
    ensures Clean(heads, ms) <==> Linear(heads, ms)
  {
    hide Due;
    if Clean(heads, ms) {
      CleanIsLinear(heads, ms);
    }
    if Linear(heads, ms) {
      forall f ensures !Due(heads, ms, f) {
        LineIsClean(heads, ms, f);
      }
    }
  }

  // Two places with the same parent make it shared.
  lemma {:induction false} SharedTwice(ms: seq<Migration>, i: nat, j: nat)
    requires i < j < |ms| && ms[i].down == ms[j].down
    ensures |Owners(ms, ms[i].down)| >= 2
  {
    var n := |ms| - 1;
    if j < n {
      SharedTwice(ms[..n], i, j);
    } else {
      OwnersAre(ms[..n], ms[i].down, ms[i].revision);
      assert ms[..n][i] == ms[i];
    }
  }

  /** What a check without findings says of any graph: it is a line if and only if no id is repeated. */
  lemma CleanIsLinearExactly(heads: seq<Revision>, ms: seq<Migration>)
    requires Clean(heads, ms)
    ensures Linear(heads, ms) <==> DistinctIds(ms)
  {
    hide Due;
    if DistinctIds(ms) {
      CleanIsLinear(heads, ms);
    }
    if Linear(heads, ms) {
      var chain :| Line(heads, ms, chain);
      forall i, j | 0 <= i < j < |ms|
        ensures ms[i].revision != ms[j].revision
      {
        LineNeverRepeats(heads, ms, chain, i, j);
      }
    }
  }

  lemma LineNeverRepeats(heads: seq<Revision>, ms: seq<Migration>, chain: seq<Revision>, i: nat, j: nat)
    requires Clean(heads, ms) && Line(heads, ms, chain) && i < j < |ms|
    ensures ms[i].revision != ms[j].revision
  {
    var p := PlaceOf(heads, ms, chain, ms[i]);
    var q := PlaceOf(heads, ms, chain, ms[j]);
    if p == q {
      SharedTwice(ms, i, j);
      var owners := Owners(ms, ms[i].down);
      assert Due(heads, ms, SharedParent(ms[i].down, owners));
    }
  }

  // ---------- The check ----------

  // What the first loop has filled in after some of the migrations.
  datatype Tables = Tables(owners: map<Parent, seq<Revision>>, bases: seq<Revision>, parentOf: map<Revision, Revision>,
                           merges: set<Revision>)

  ghost predicate TablesOf(t: Tables, ms: seq<Migration>) {
    && (forall down :: (down in t.owners <==> Owners(ms, down) != []) && (down in t.owners ==> t.owners[down] == Owners(ms, down)))
    && t.bases == Baselines(ms) && t.parentOf == Parents(ms)
    && forall r :: r in t.merges <==> exists m :: m in ms && m.revision == r && m.down.Several?
  }

  function Added(t: Tables, m: Migration): Tables {
    Tables(
      t.owners[m.down := (if m.down in t.owners then t.owners[m.down] else []) + [m.revision]],
      if m.down.Baseline? then t.bases + [m.revision] else t.bases,
      if m.down.One? then t.parentOf[m.revision := m.down.revision] else t.parentOf,
      if m.down.Several? then t.merges + {m.revision} else t.merges)
  }

  lemma TablesGrow(t: Tables, ms: seq<Migration>, m: Migration)
    requires TablesOf(t, ms)
    ensures TablesOf(Added(t, m), ms + [m])
  {
    forall down {
      OneMoreMigration(ms, m, down);
    }
    hide Owners, Baselines, Parents;
    assert forall x :: x in ms + [m] <==> x in ms || x == m;
  }

  // What each table gains from one more migration.
  lemma OneMoreMigration(ms: seq<Migration>, m: Migration, down: Parent)
    ensures Owners(ms + [m], down) == Owners(ms, down) + (if m.down == down then [m.revision] else [])
    ensures Baselines(ms + [m]) == Baselines(ms) + (if m.down.Baseline? then [m.revision] else [])
    ensures Parents(ms + [m]) == if m.down.One? then Parents(ms)[m.revision := m.down.revision] else Parents(ms)
  {
    assert (ms + [m])[..|ms|] == ms;
  }

  lemma NoTables()
    ensures TablesOf(Tables(map[], [], map[], {}), [])
  {
  }

  // The findings of the first loop.
  ghost predicate PerMigration(ids: set<Revision>, ms: seq<Migration>, f: Finding) {
    match f
    case MergeRevision(r, parents) => Migration(r, Several(parents)) in ms
    case MissingParent(r, parent) => Migration(r, One(parent)) in ms && parent !in ids
    case _ => false
  }

  method ScanMigrations(ms: seq<Migration>, ids: set<Revision>) returns (t: Tables, findings: seq<Finding>)
    ensures TablesOf(t, ms)
    ensures forall f :: f in findings <==> PerMigration(ids, ms, f)
  {
    hide TablesOf, Added;
    t, findings := Tables(map[], [], map[], {}), [];
    NoTables();
    for n := 0 to |ms|
      invariant TablesOf(t, ms[..n])
      invariant forall f :: f in findings <==> PerMigration(ids, ms[..n], f)
    {
      var m := ms[n];
      TablesGrow(t, ms[..n], m);
      assert ms[..n + 1] == ms[..n] + [m];
      t := Added(t, m);
      match m.down {
        case Several(parents) => findings := findings + [MergeRevision(m.revision, parents)];
        case One(parent) =>
          if parent !in ids {
            findings := findings + [MissingParent(m.revision, parent)];
          }
        case Baseline =>
      }
    }
    assert ms[..|ms|] == ms;
  }

  /** Walks parents from the head, stopping at a revision already seen: terminates on any input and
      collects exactly the ancestors. */
  method WalkParents(parents: map<Revision, Revision>, head: Revision) returns (reachable: set<Revision>)
    ensures forall r :: r in reachable <==> Reaches(parents, head, r)
  {
    reachable := {};
    var current := Some(head);
    var everything := {head} + parents.Values;
    ghost var n: nat := 0;
    while current.Some? && current.value !in reachable
      invariant current == Ancestor(parents, head, n) && (current.Some? ==> current.value in everything)
      invariant reachable <= everything
      invariant forall r :: r in reachable ==> Reaches(parents, head, r)
      invariant forall i :: 0 <= i < n ==> Ancestor(parents, head, i).Some? && Ancestor(parents, head, i).value in reachable
      invariant forall r :: r in reachable ==> Parent1(parents, r) == current || ParentIn(parents, r, reachable)
      decreases everything - reachable
    {
      reachable := reachable + {current.value};
      current := Parent1(parents, current.value);
      n := n + 1;
    }
    forall r | Reaches(parents, head, r)
      ensures r in reachable
    {
      var m: nat :| Ancestor(parents, head, m) == Some(r);
      StaysReachable(parents, head, reachable, n, m);
    }
  }

  predicate ParentIn(parents: map<Revision, Revision>, r: Revision, s: set<Revision>) {
    r in parents && parents[r] in s
  }

  lemma {:induction false} StaysReachable(parents: map<Revision, Revision>, head: Revision, s: set<Revision>, n: nat, m: nat)
    requires forall i :: 0 <= i < n ==> Ancestor(parents, head, i).Some? && Ancestor(parents, head, i).value in s
    requires Ancestor(parents, head, n).Some? ==> Ancestor(parents, head, n).value in s
    requires forall r :: r in s ==> Parent1(parents, r) == Ancestor(parents, head, n) || ParentIn(parents, r, s)
    requires Ancestor(parents, head, m).Some?
    ensures Ancestor(parents, head, m).value in s
  {
    if m > n {
      StaysReachable(parents, head, s, n, m - 1);
    }
  }

  method SharedParents(owners: map<Parent, seq<Revision>>) returns (findings: seq<Finding>)
    ensures forall f :: f in findings <==> f.SharedParent? && f.down in owners && f.owners == owners[f.down] && |f.owners| > 1
  {
    findings := [];
    var rest := owners.Keys;
    while rest != {}
      invariant rest <= owners.Keys
      invariant forall f :: f in findings <==>
        f.SharedParent? && f.down in owners && f.down !in rest && f.owners == owners[f.down] && |f.owners| > 1
      decreases |rest|
    {
      var down :| down in rest;
      rest := rest - {down};
      if |owners[down]| > 1 {
        findings := findings + [SharedParent(down, owners[down])];
      }
    }
  }

  // Disconnected findings name exactly one set.
  lemma UnreachableIsUnique(heads: seq<Revision>, ms: seq<Migration>, u: set<Revision>, f: Finding)
    requires |heads| == 1 && IsUnreachable(ms, heads[0], u)
    ensures f.Disconnected? ==> (Due(heads, ms, f) <==> u != {} && f == Disconnected(u, heads[0]))
  {
    if f.Disconnected? && Due(heads, ms, f) {
      assert f.head == heads[0];
      assert forall r :: r in f.unreachable <==> r in u;
    }
  }

  /** With distinct ids a disconnection names exactly the revisions that no path of single parents leads to from
      the one head, and that are no merges themselves. */
  lemma DisconnectedExactly(heads: seq<Revision>, ms: seq<Migration>, u: set<Revision>, head: Revision)
    requires DistinctIds(ms)
    ensures Due(heads, ms, Disconnected(u, head)) <==>
      && heads == [head] && u != {}
      && forall r :: r in u <==>
           (exists m :: m in ms && m.revision == r && !m.down.Several?) && !exists path :: IsPath(ms, path, head, r)
  {
    forall r
      ensures Reaches(Parents(ms), head, r) <==> exists path :: IsPath(ms, path, head, r)
      ensures r in Ids(ms) && !(exists m :: m in ms && m.revision == r && m.down.Several?)
        <==> exists m :: m in ms && m.revision == r && !m.down.Several?
    {
      ReachedByPath(ms, head, r);
    }
    hide Reaches, Parents, IsPath;
  }

  lemma NoneIsClean(heads: seq<Revision>, ms: seq<Migration>, findings: seq<Finding>)
    requires forall f :: f in findings <==> Due(heads, ms, f)
    ensures findings == [] <==> Clean(heads, ms)
  {
    hide Due;
    if findings != [] {
      assert findings[0] in findings;
    }
  }

  /** The findings are exactly those due, and for distinct revision ids there are none exactly when the
      migrations form one line from the single head to the single baseline. */
  method CheckChain(heads: seq<Revision>, ms: seq<Migration>) returns (findings: seq<Finding>)
    ensures forall f :: f in findings <==> Due(heads, ms, f)
    ensures DistinctIds(ms) ==> (findings == [] <==> Linear(heads, ms))
  {
    hide Owners, Baselines, Parents, Reaches, Linear, DistinctIds;
    findings := [];
    if |heads| != 1 {
      findings := findings + [WrongHeads(heads)];
    }
    var ids := set m | m in ms :: m.revision;
    var t, scanned := ScanMigrations(ms, ids);
    findings := findings + scanned;
    if |t.bases| != 1 {
      findings := findings + [WrongBaselines(t.bases)];
    }
    var shared := SharedParents(t.owners);
    findings := findings + shared;
    assert forall f: Finding :: f in findings <==> !f.Disconnected? && Due(heads, ms, f);
    if |heads| == 1 {
      var reachable := WalkParents(t.parentOf, heads[0]);
      var unreachable := ids - reachable - t.merges;
      assert IsUnreachable(ms, heads[0], unreachable);
      forall f: Finding
        ensures f.Disconnected? ==> (Due(heads, ms, f) <==> unreachable != {} && f == Disconnected(unreachable, heads[0]))
      {
        UnreachableIsUnique(heads, ms, unreachable, f);
      }
      if unreachable != {} {
        findings := findings + [Disconnected(unreachable, heads[0])];
      }
    }
    NoneIsClean(heads, ms, findings);
    if DistinctIds(ms) {
      CleanExactlyWhenLinear(heads, ms);
    }
  }

  lemma RepeatedIdTables(a: Migration, b: Migration, c: Migration)
    requires a == Migration("a", Baseline) && b == Migration("b", One("b")) && c == Migration("b", One("a"))
    ensures Baselines([a, b, c]) == ["a"] && Parents([a, b, c]) == map["b" := "a"]
  {
    assert [a, b, c][..2] == [a, b] && [a, b][..1] == [a] && [a][..0] == [];
    assert Baselines([a]) == ["a"] && Parents([a]) == map[];
    assert Baselines([a, b]) == ["a"] && Parents([a, b]) == map["b" := "b"];
    assert [a, b, c][2] == c;
  }

  lemma RepeatedIdOwners(a: Migration, b: Migration, c: Migration, down: Parent)
    requires a == Migration("a", Baseline) && b == Migration("b", One("b")) && c == Migration("b", One("a"))
    ensures |Owners([a, b, c], down)| <= 1
  {
    assert [a, b, c][..2] == [a, b] && [a, b][..1] == [a] && [a][..0] == [];
    assert Owners([a], down) == if down == Baseline then ["a"] else [];
    assert Owners([a, b], down) == if down == Baseline then ["a"] else if down == One("b") then ["b"] else [];
    assert [a, b, c][2] == c;
  }

  /** With a repeated revision id the check can pass on migrations that form no line. */
  lemma RepeatedIdPasses()
    ensures var ms := [Migration("a", Baseline), Migration("b", One("b")), Migration("b", One("a"))];
            Clean(["b"], ms) && !Linear(["b"], ms)
  {
    var a, bb, ba := Migration("a", Baseline), Migration("b", One("b")), Migration("b", One("a"));
    var ms := [a, bb, ba];
    RepeatedIdTables(a, bb, ba);
    assert bb in ms && ba in ms && a in ms;
    assert Ancestor(Parents(ms), "b", 0) == Some("b");
    assert Ancestor(Parents(ms), "b", 1) == Some("a");
    forall f
      ensures !Due(["b"], ms, f)
    {
      match f
      case SharedParent(down, _) =>
        RepeatedIdOwners(a, bb, ba, down);
      case _ =>
    }
    forall chain
      ensures !Line(["b"], ms, chain)
    {
    }
  }
}
