/** What the reported numbers conserve, and how they add up. */
module CorpusConservation {
  import opened Options
  import opened CorpusLabels
  import opened CorpusMetrics
  import opened Sums

  function D(path: Path, m: Metric): Query {
    Denominator(path, m)
  }

  function N(path: Path, m: Metric): Query {
    Numerator(path, m)
  }

  function O(path: Path, o: Outcome): Query {
    Opportunities(path, o)
  }

  // ---------- Conservation ----------

  /** Every gradable case is a hit of exactly one of three metrics; a supported case is either gradable
      or a wiring gap; the false-positive metrics cover the other outcomes. */
  lemma CaseIsConserved(path: Path, c: Case)
    ensures CaseWeight(D(path, Correctness), c) == CaseWeight(D(path, Abstention), c) == CaseWeight(D(path, ConfidentlyWrong), c)
    ensures CaseWeight(N(path, Correctness), c) + CaseWeight(N(path, Abstention), c) + CaseWeight(N(path, ConfidentlyWrong), c)
         == CaseWeight(D(path, Correctness), c)
    ensures CaseWeight(N(path, Gap), c) + CaseWeight(D(path, Correctness), c) == CaseWeight(O(path, PresentSupported), c)
    ensures CaseWeight(D(path, Gap), c) == if c.wired.Some? then CaseWeight(O(path, PresentSupported), c) else 0
    ensures CaseWeight(D(path, ProvenanceRight), c) == CaseWeight(N(path, Correctness), c) + CaseWeight(N(path, ConfidentlyWrong), c)
    ensures CaseWeight(D(path, FalseAbsent), c) == CaseWeight(O(path, Absent), c)
    ensures CaseWeight(D(path, FalseUnsupported), c) == CaseWeight(O(path, PresentUnsupportedForm), c)
    ensures CaseWeight(D(path, FalseAmbiguous), c) == CaseWeight(O(path, Ambiguous), c)
    ensures CaseWeight(O(path, PresentSupported), c) + CaseWeight(O(path, Absent), c)
         + CaseWeight(O(path, PresentUnsupportedForm), c) + CaseWeight(O(path, Ambiguous), c) == 1
  {
  }

  // Whether the component's wired input may be missing.
  predicate GapApplies(path: Path) {
    ParserOf(path) == "salary" || ParserOf(path) == "location"
  }

  /** The relations conserved between the numbers of one component, reported or added by one record. */
  ghost predicate Conserved(path: Path, read: Query -> nat) {
    && read(D(path, Correctness)) == read(D(path, Abstention)) == read(D(path, ConfidentlyWrong))
    && read(N(path, Correctness)) + read(N(path, Abstention)) + read(N(path, ConfidentlyWrong)) == read(D(path, Correctness))
    && read(N(path, Gap)) + read(D(path, Correctness)) == read(O(path, PresentSupported))
    && read(D(path, Gap)) == (if GapApplies(path) then read(O(path, PresentSupported)) else 0)
    && read(D(path, ProvenanceRight)) == read(N(path, Correctness)) + read(N(path, ConfidentlyWrong))
    && read(D(path, FalseAbsent)) == read(O(path, Absent))
    && read(D(path, FalseUnsupported)) == read(O(path, PresentUnsupportedForm))
    && read(D(path, FalseAmbiguous)) == read(O(path, Ambiguous))
    && read(O(path, PresentSupported)) + read(O(path, Absent)) + read(O(path, PresentUnsupportedForm))
       + read(O(path, Ambiguous)) + read(Failures(ParserOf(path))) == read(Invocations(ParserOf(path)))
  }

  lemma RecordConserves(path: Path, r: Evaluated, all: set<string>)
    requires Complete(r, all) && path in ScoredPaths()
    ensures Conserved(path, q => Weight(q, r))
  {
    hide CaseWeight, Complete, ScoredPaths, Parsers, WiredInput;
    ScoredHasParser(path);
    NamesAre();
    ParserNames(ParserOf(path));
    RunsArePresent(path, r, all);
    var offered := CaseOf(r, path);
    if offered.Some? {
      CaseIsConserved(path, offered.value);
      WiredExactlyWhenGapApplies(r, path);
    }
  }

  lemma WiredExactlyWhenGapApplies(r: Evaluated, path: Path)
    ensures WiredInput(r, ParserOf(path)).Some? <==> GapApplies(path)
  {
  }

  // A scored component of a complete record has a case unless its parser raised.
  lemma RunsArePresent(path: Path, r: Evaluated, all: set<string>)
    requires Complete(r, all) && path in ScoredPaths()
    ensures ParserOf(path) in r.runs && ParserOf(path) != "skills"
    ensures CaseOf(r, path).Some? <==> r.runs[ParserOf(path)].Returned?
  {
    hide Parsers, LabelPaths, ScoredPaths;
    ScoredHasParser(path);
    NamesAre();
    ParsersAreListed();
    var p: Parser :| p in Parsers() && p.name == ParserOf(path);
    var i :| 0 <= i < |Parsers()| && Parsers()[i] == p;
    assert Listed(Parsers()[i]) && path in p.paths;
    ScoredIsLabelled(path, all);
  }

  lemma ScoredIsLabelled(path: Path, all: set<string>)
    requires path in ScoredPaths()
    ensures path in LabelPaths(all) && !path.SkillPath?
  {
    NotComponent(path);
  }

  /** Whatever the records, the reported numbers of every component conserve its cases. */
  lemma {:induction false} ComponentConserves(path: Path, records: seq<Evaluated>, all: set<string>)
    requires path in ScoredPaths() && forall i :: 0 <= i < |records| ==> Complete(records[i], all)
    ensures Conserved(path, q => Total(q, records))
  {
    hide Weight, Complete, ScoredPaths, ParserOf;
    if records == [] {
    } else {
      var n := |records| - 1;
      ComponentConserves(path, records[..n], all);
      RecordConserves(path, records[n], all);
    }
  }

  // ---------- Skills ----------

  ghost function IdTable(q: Query, r: Evaluated, ids: set<string>, labelled: bool): map<string, nat>
    requires r.skills.SkillsReturned?
  {
    map id | id in ids :: IdWeight(q, r, id, labelled)
  }

  function ReturnedWith(r: Evaluated, o: Outcome): map<string, nat>
    requires r.skills.SkillsReturned?
  {
    map id | id in r.skills.ids :: Bit(SkillOutcome(r, id) == Some(o))
  }

  // The numerator of a labelled metric only moves on returned ids.
  lemma LabelledHitsAreReturned(r: Evaluated, all: set<string>, m: SkillMetric)
    requires Complete(r, all) && r.skills.SkillsReturned? && !OverReturned(m)
    ensures IdWeights(SkillNumerator(m), r, LabelledIds(r), true)
         == Sum(ReturnedWith(r, OutcomeOf(m)))
    ensures IdWeights(SkillNumerator(m), r, r.skills.ids, false) == 0
  {
    hide Parsers, Sum, LabelPaths;
    LabelledAre(r, all);
    SumRestrict(IdTable(SkillNumerator(m), r, LabelledIds(r), true), ReturnedWith(r, OutcomeOf(m)));
    SumZero(IdTable(SkillNumerator(m), r, r.skills.ids, false));
  }

  // The returned-id metrics take nothing from the labelled loop.
  lemma ReturnedMetricsAreReturned(r: Evaluated, m: SkillMetric)
    requires r.skills.SkillsReturned? && OverReturned(m)
    ensures IdWeights(SkillNumerator(m), r, LabelledIds(r), true) == 0
    ensures IdWeights(SkillDenominator(m), r, LabelledIds(r), true) == 0
  {
    hide Sum;
    SumZero(IdTable(SkillNumerator(m), r, LabelledIds(r), true));
    SumZero(IdTable(SkillDenominator(m), r, LabelledIds(r), true));
  }

  // A returned id is a precision case, inside or outside the supported set.
  lemma ReturnedIdsPartition(r: Evaluated)
    requires r.skills.SkillsReturned?
    ensures IdWeights(SkillNumerator(Precision), r, r.skills.ids, false) == Sum(ReturnedWith(r, PresentSupported))
    ensures IdWeights(SkillDenominator(Precision), r, r.skills.ids, false)
         == IdWeights(SkillDenominator(OutsideFrozenSet), r, r.skills.ids, false)
         == IdWeights(SkillNumerator(Precision), r, r.skills.ids, false)
          + IdWeights(SkillNumerator(OutsideFrozenSet), r, r.skills.ids, false)
  {
    hide Sum, LabelledIds;
    var ids := r.skills.ids;
    var inside, outside := IdTable(SkillNumerator(Precision), r, ids, false), IdTable(SkillNumerator(OutsideFrozenSet), r, ids, false);
    var cases := IdTable(SkillDenominator(Precision), r, ids, false);
    assert inside == ReturnedWith(r, PresentSupported);
    assert cases == IdTable(SkillDenominator(OutsideFrozenSet), r, ids, false);
    SumPointwise(inside, outside, cases);
  }

  lemma OneOutcome(o: Outcome)
    ensures Bit(o == Absent) + Bit(o == PresentUnsupportedForm) + Bit(o == Ambiguous) == Bit(o != PresentSupported)
  {
  }

  // A returned id outside the supported set has one of the three other outcomes.
  lemma OutsideIdsPartition(r: Evaluated)
    requires r.skills.SkillsReturned? && forall id :: id in r.skills.ids ==> SkillOutcome(r, id).Some?
    ensures IdWeights(SkillNumerator(OutsideFrozenSet), r, r.skills.ids, false)
         == Sum(ReturnedWith(r, Absent)) + Sum(ReturnedWith(r, PresentUnsupportedForm)) + Sum(ReturnedWith(r, Ambiguous))
  {
    hide Sum, LabelledIds;
    var absent, unsupported, ambiguous :=
      ReturnedWith(r, Absent), ReturnedWith(r, PresentUnsupportedForm), ReturnedWith(r, Ambiguous);
    var two := map id | id in r.skills.ids :: absent[id] + unsupported[id];
    forall id | id in r.skills.ids
      ensures IdWeight(SkillNumerator(OutsideFrozenSet), r, id, false) == absent[id] + unsupported[id] + ambiguous[id]
    {
      OneOutcome(SkillOutcome(r, id).value);
    }
    SumPointwise(absent, unsupported, two);
    SumPointwise(two, ambiguous, IdTable(SkillNumerator(OutsideFrozenSet), r, r.skills.ids, false));
  }

  lemma ReturnedAreLabelled(r: Evaluated, all: set<string>)
    requires Complete(r, all) && r.skills.SkillsReturned?
    ensures forall id :: id in r.skills.ids ==> SkillOutcome(r, id).Some?
  {
    hide Parsers, LabelPaths;
    LabelledAre(r, all);
  }

  /** The relations conserved between the skills numbers, reported or added by one record. */
  ghost predicate SkillsConserved(read: Query -> nat) {
    && read(SkillNumerator(Precision)) == read(SkillNumerator(Recall))
    && read(SkillDenominator(Precision)) == read(SkillDenominator(OutsideFrozenSet))
    && read(SkillNumerator(Precision)) + read(SkillNumerator(OutsideFrozenSet)) == read(SkillDenominator(Precision))
    && read(SkillNumerator(SkillFalseAbsent)) + read(SkillNumerator(SkillFalseUnsupported))
       + read(SkillNumerator(SkillFalseAmbiguous)) == read(SkillNumerator(OutsideFrozenSet))
  }

  lemma RecordSkillsConserve(r: Evaluated, all: set<string>)
    requires Complete(r, all)
    ensures SkillsConserved(q => Weight(q, r))
  {
    hide Complete, IdWeights, Sum, Weight, ReturnedWith;
    SkillWeightIs(r);
    if r.skills.SkillsReturned? {
      ReturnedAreLabelled(r, all);
      ReturnedIdsPartition(r);
      OutsideIdsPartition(r);
      ReturnedMetricsAreReturned(r, Precision);
      ReturnedMetricsAreReturned(r, OutsideFrozenSet);
      LabelledHitsAreReturned(r, all, Recall);
      LabelledHitsAreReturned(r, all, SkillFalseAbsent);
      LabelledHitsAreReturned(r, all, SkillFalseUnsupported);
      LabelledHitsAreReturned(r, all, SkillFalseAmbiguous);
    }
  }

  // Both loops of the skills evaluation together.
  ghost function LoopWeights(q: Query, r: Evaluated): nat {
    if r.skills.SkillsRaised? then 0 else IdWeights(q, r, LabelledIds(r), true) + IdWeights(q, r, r.skills.ids, false)
  }

  lemma SkillWeightIs(r: Evaluated)
    ensures forall m :: Weight(SkillNumerator(m), r) == LoopWeights(SkillNumerator(m), r)
    ensures forall m :: Weight(SkillDenominator(m), r) == LoopWeights(SkillDenominator(m), r)
  {
    hide IdWeights;
  }

  /** Whatever the records, precision and recall have the same hits, and precision's misses are exactly
      the false positives of the other outcomes. */
  lemma {:induction false} SkillsConserve(records: seq<Evaluated>, all: set<string>)
    requires forall i :: 0 <= i < |records| ==> Complete(records[i], all)
    ensures SkillsConserved(q => Total(q, records))
  {
    hide Weight, Complete;
    if records == [] {
    } else {
      SkillsConserve(records[..|records| - 1], all);
      RecordSkillsConserve(records[|records| - 1], all);
    }
  }

  // ---------- Adding up ----------

  function OfSplit(records: seq<Evaluated>, split: Split): seq<Evaluated> {
    if records == [] then []
    else
      var last := records[|records| - 1];
      OfSplit(records[..|records| - 1], split) + (if last.split == split then [last] else [])
  }

  function OfEmployer(records: seq<Evaluated>, employer: string): seq<Evaluated> {
    if records == [] then []
    else
      var last := records[|records| - 1];
      OfEmployer(records[..|records| - 1], employer) + (if last.employer == employer then [last] else [])
  }

  lemma TotalOneMore(q: Query, records: seq<Evaluated>, r: Evaluated)
    ensures Total(q, records + [r]) == Total(q, records) + Weight(q, r)
  {
    hide Weight;
    assert (records + [r])[..|records|] == records;
  }

  lemma TotalLast(q: Query, records: seq<Evaluated>)
    ensures records == [] ==> Total(q, records) == 0
    ensures records != [] ==>
      Total(q, records) == Total(q, records[..|records| - 1]) + Weight(q, records[|records| - 1])
  {
    hide Weight;
  }

  // Adding a record on a condition adds its weight on that condition.
  lemma TotalIf(q: Query, records: seq<Evaluated>, r: Evaluated, added: bool)
    ensures Total(q, records + (if added then [r] else [])) == Total(q, records) + if added then Weight(q, r) else 0
  {
    hide Weight, Total;
    TotalOneMore(q, records, r);
    assert records + [] == records;
  }

  /** Every number of the whole corpus is the dev number plus the holdout number. */
  lemma {:induction false} SplitsAddUp(q: Query, records: seq<Evaluated>)
    ensures Total(q, records) == Total(q, OfSplit(records, Dev)) + Total(q, OfSplit(records, Holdout))
  {
    hide Weight, Total;
    TotalLast(q, records);
    TotalLast(q, []);
    if records != [] {
      var n := |records| - 1;
      SplitsAddUp(q, records[..n]);
      TotalIf(q, OfSplit(records[..n], Dev), records[n], records[n].split == Dev);
      TotalIf(q, OfSplit(records[..n], Holdout), records[n], records[n].split == Holdout);
    }
  }

  ghost function ByEmployer(q: Query, records: seq<Evaluated>, employers: set<string>): map<string, nat> {
    map e | e in employers :: Total(q, OfEmployer(records, e))
  }

  /** And it is the sum of the employers' numbers, over any set that names every employer. */
  lemma {:induction false} EmployersAddUp(q: Query, records: seq<Evaluated>, employers: set<string>)
    requires forall i :: 0 <= i < |records| ==> records[i].employer in employers
    ensures Total(q, records) == Sum(ByEmployer(q, records, employers))
  {
    hide Weight, Sum, Total, OfEmployer;
    TotalLast(q, records);
    if records == [] {
      NoRecords(q, employers);
    } else {
      var n := |records| - 1;
      var before, last := ByEmployer(q, records[..n], employers), records[n];
      EmployersAddUp(q, records[..n], employers);
      EmployerOneMore(q, records, employers);
      SumUpdate(before, last.employer, before[last.employer] + Weight(q, last));
    }
  }

  lemma NoRecords(q: Query, employers: set<string>)
    ensures Sum(ByEmployer(q, [], employers)) == 0
  {
    SumZero(ByEmployer(q, [], employers));
  }

  lemma EmployerOneMore(q: Query, records: seq<Evaluated>, employers: set<string>)
    requires records != [] && records[|records| - 1].employer in employers
    ensures var before, last := ByEmployer(q, records[..|records| - 1], employers), records[|records| - 1];
            ByEmployer(q, records, employers) == before[last.employer := before[last.employer] + Weight(q, last)]
  {
    hide Weight, Total;
    var last, front := records[|records| - 1], records[..|records| - 1];
    forall e | e in employers
      ensures Total(q, OfEmployer(records, e)) == Total(q, OfEmployer(front, e)) + if last.employer == e then Weight(q, last) else 0
    {
      TotalIf(q, OfEmployer(front, e), last, last.employer == e);
    }
  }

  /** No number depends on the order of the records. */
  lemma {:induction false} OrderFree(q: Query, a: seq<Evaluated>, b: seq<Evaluated>)
    requires multiset(a) == multiset(b)
    ensures Total(q, a) == Total(q, b)
    decreases |a|
  {
    hide Weight, Total;
    TotalLast(q, a);
    if a == [] {
      assert |b| == |multiset(b)| == 0;
    } else {
      var n := |a| - 1;
      var i := PlaceOf(a, b);
      OrderFree(q, a[..n], b[..i] + b[i + 1..]);
      TotalInsert(q, b[..i], b[i], b[i + 1..]);
      assert b == b[..i] + [b[i]] + b[i + 1..];
    }
  }

  lemma Cancel<T>(x: multiset<T>, y: multiset<T>, e: T)
    requires x + multiset{e} == y + multiset{e}
    ensures x == y
  {
    assert x == (x + multiset{e}) - multiset{e} && y == (y + multiset{e}) - multiset{e};
  }

  // Where a's last record is in b; what remains of both is again the same records.
  lemma PlaceOf(a: seq<Evaluated>, b: seq<Evaluated>) returns (i: nat)
    requires multiset(a) == multiset(b) && a != []
    ensures i < |b| && b[i] == a[|a| - 1] && multiset(b[..i] + b[i + 1..]) == multiset(a[..|a| - 1])
  {
    var n := |a| - 1;
    assert a == a[..n] + [a[n]];
    assert multiset(a) == multiset(a[..n]) + multiset{a[n]};
    assert a[n] in multiset(b);
    i :| 0 <= i < |b| && b[i] == a[n];
    assert b == b[..i] + [b[i]] + b[i + 1..];
    assert multiset(b) == multiset(b[..i]) + multiset{b[i]} + multiset(b[i + 1..]);
    assert multiset(b[..i] + b[i + 1..]) == multiset(b[..i]) + multiset(b[i + 1..]);
    Cancel(multiset(b[..i] + b[i + 1..]), multiset(a[..n]), a[n]);
  }

  lemma {:induction false} TotalInsert(q: Query, front: seq<Evaluated>, r: Evaluated, back: seq<Evaluated>)
    ensures Total(q, front + [r] + back) == Total(q, front + back) + Weight(q, r)
    decreases |back|
  {
    hide Weight;
    if back == [] {
      assert front + [r] + back == front + [r] && front + back == front;
      TotalOneMore(q, front, r);
    } else {
      var n := |back| - 1;
      TotalInsert(q, front, r, back[..n]);
      assert front + [r] + back == (front + [r] + back[..n]) + [back[n]];
      assert front + back == (front + back[..n]) + [back[n]];
      TotalOneMore(q, front + [r] + back[..n], back[n]);
      TotalOneMore(q, front + back[..n], back[n]);
    }
  }

  // ---------- The whole report ----------

  predicate Among(some: seq<Evaluated>, records: seq<Evaluated>) {
    forall i :: 0 <= i < |some| ==> some[i] in records
  }

  lemma {:induction false} OnlySplits(records: seq<Evaluated>, split: Split)
    ensures Among(OfSplit(records, split), records)
  {
    if records != [] {
      OnlySplits(records[..|records| - 1], split);
    }
  }

  lemma {:induction false} OnlyEmployers(records: seq<Evaluated>, employer: string)
    ensures Among(OfEmployer(records, employer), records)
  {
    if records != [] {
      OnlyEmployers(records[..|records| - 1], employer);
    }
  }

  method EvaluateSome(some: seq<Evaluated>, ghost records: seq<Evaluated>, ghost all: set<string>) returns (evaluation: SplitEvaluation)
    requires Among(some, records) && forall i :: 0 <= i < |records| ==> Complete(records[i], all)
    ensures fresh(evaluation) && forall q :: evaluation.Read(q) == Total(q, some)
  {
    hide Complete, Total, SplitEvaluation.Read;
    evaluation := new SplitEvaluation();
    forall i | 0 <= i < |some|
      ensures Complete(some[i], all)
    {
      var k :| 0 <= k < |records| && records[k] == some[i];
    }
    evaluation.EvaluateRecords(some, all);
  }

  /** The report of a whole corpus: each of its evaluations counts exactly its own records, so that the
      laws above relate them. */
  method EvaluateCorpus(records: seq<Evaluated>, ghost all: set<string>)
    returns (dev: SplitEvaluation, holdout: SplitEvaluation, combined: SplitEvaluation, employers: map<string, SplitEvaluation>)
    requires forall i :: 0 <= i < |records| ==> Complete(records[i], all)
    ensures forall q :: dev.Read(q) == Total(q, OfSplit(records, Dev))
    ensures forall q :: holdout.Read(q) == Total(q, OfSplit(records, Holdout))
    ensures forall q :: combined.Read(q) == Total(q, records)
    ensures employers.Keys == (set i | 0 <= i < |records| :: records[i].employer)
    ensures forall e, q :: e in employers ==> employers[e].Read(q) == Total(q, OfEmployer(records, e))
  {
    hide Complete, Total, SplitEvaluation.Read;
    OnlySplits(records, Dev);
    OnlySplits(records, Holdout);
    dev := EvaluateSome(OfSplit(records, Dev), records, all);
    holdout := EvaluateSome(OfSplit(records, Holdout), records, all);
    combined := EvaluateSome(records, records, all);
    employers := map[];
    var rest := set i | 0 <= i < |records| :: records[i].employer;
    ghost var named := rest;
    while rest != {}
      modifies {}
      invariant rest <= named && employers.Keys == named - rest
      invariant forall e, q :: e in employers ==> employers[e].Read(q) == Total(q, OfEmployer(records, e))
      decreases |rest|
    {
      var e :| e in rest;
      rest := rest - {e};
      OnlyEmployers(records, e);
      var evaluation := EvaluateSome(OfEmployer(records, e), records, all);
      employers := employers[e := evaluation];
    }
  }
}
