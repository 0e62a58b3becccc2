/** What each reported number counts, said of records, labels and parser runs; and when a report is perfect. */
module CorpusReadings {
  import opened Options
  import opened CorpusLabels
  import opened CorpusMetrics
  import opened CorpusConservation
  import opened Sums

  // ---------- What a record says of a component ----------

  // The component's parser returned.
  predicate Answered(r: Evaluated, path: Path) {
    && ParserOf(path) in r.runs && r.runs[ParserOf(path)].Returned? && path in r.runs[ParserOf(path)].actuals
    && path in r.labels && r.labels[path].ScoredLabel?
  }

  function Said(r: Evaluated, path: Path): Actual
    requires Answered(r, path)
  {
    r.runs[ParserOf(path)].actuals[path]
  }

  // The structured input the parser reads was missing from the posting.
  predicate InputMissing(r: Evaluated, path: Path) {
    (ParserOf(path) == "salary" && !r.compensationPresent) || (ParserOf(path) == "location" && !r.locationPresent)
  }

  // The label, on an answered component.
  predicate Labelled(r: Evaluated, path: Path, o: Outcome) {
    Answered(r, path) && r.labels[path].outcome == o
  }

  // A value was there to be found.
  predicate Findable(r: Evaluated, path: Path) {
    Labelled(r, path, PresentSupported) && !InputMissing(r, path)
  }

  predicate SaidSomething(r: Evaluated, path: Path) {
    Answered(r, path) && Said(r, path).value.Some?
  }

  // The value said is the label's.
  predicate SaidTheLabel(r: Evaluated, path: Path) {
    SaidSomething(r, path) && Said(r, path).value == r.labels[path].value
  }

  predicate SaidOtherwise(r: Evaluated, path: Path) {
    SaidSomething(r, path) && Said(r, path).value != r.labels[path].value
  }

  predicate ProvenanceAgrees(r: Evaluated, path: Path) {
    Answered(r, path) && Said(r, path).provenance == r.labels[path].provenance
  }

  // ---------- Counting records ----------

  ghost function Which(records: seq<Evaluated>, p: Evaluated -> bool): set<nat> {
    set i: nat | i < |records| && p(records[i])
  }

  /** How many of the records. */
  ghost function HowMany(records: seq<Evaluated>, p: Evaluated -> bool): nat {
    |Which(records, p)|
  }

  lemma OneRecordMore(records: seq<Evaluated>, p: Evaluated -> bool)
    ensures records == [] ==> HowMany(records, p) == 0
    ensures records != [] ==>
      HowMany(records, p) == HowMany(records[..|records| - 1], p) + if p(records[|records| - 1]) then 1 else 0
  {
    if records == [] {
      assert Which(records, p) == {};
    } else {
      var n := |records| - 1;
      assert Which(records, p) == Which(records[..n], p) + (if p(records[n]) then {n} else {});
    }
  }

  lemma {:induction false} TotalCounts(q: Query, records: seq<Evaluated>, p: Evaluated -> bool)
    requires forall i :: 0 <= i < |records| ==> Weight(q, records[i]) == if p(records[i]) then 1 else 0
    ensures Total(q, records) == HowMany(records, p)
  {
    hide Weight, HowMany;
    OneRecordMore(records, p);
    if records != [] {
      TotalCounts(q, records[..|records| - 1], p);
    }
  }

  // Records that all pass are as many as there are, and the other way round.
  lemma SameCount(records: seq<Evaluated>, some: Evaluated -> bool, all: Evaluated -> bool)
    requires forall i :: 0 <= i < |records| && some(records[i]) ==> all(records[i])
    ensures HowMany(records, some) == HowMany(records, all) <==> forall i :: 0 <= i < |records| && all(records[i]) ==> some(records[i])
  {
    var a, b := Which(records, some), Which(records, all);
    assert a <= b;
    if HowMany(records, some) == HowMany(records, all) {
      assert |b - a| == |b| - |a|;
      assert b - a == {};
      forall i | 0 <= i < |records| && all(records[i])
        ensures some(records[i])
      {
        assert i in b && i !in b - a;
      }
    }
    if forall i :: 0 <= i < |records| && all(records[i]) ==> some(records[i]) {
      assert a == b;
    }
  }

  lemma AnyCount(records: seq<Evaluated>, p: Evaluated -> bool)
    ensures HowMany(records, p) > 0 <==> exists i :: 0 <= i < |records| && p(records[i])
  {
    if i :| 0 <= i < |records| && p(records[i]) {
      assert i in Which(records, p);
    }
    if HowMany(records, p) > 0 {
      var i :| i in Which(records, p);
    }
  }

  // ---------- One record's share ----------

  ghost predicate AllComplete(records: seq<Evaluated>, all: set<string>) {
    forall i :: 0 <= i < |records| ==> Complete(records[i], all)
  }

  lemma CaseIsAnswered(r: Evaluated, path: Path)
    requires path in ScoredPaths()
    ensures CaseOf(r, path).Some? <==> Answered(r, path)
    ensures Answered(r, path) ==>
      var c := CaseOf(r, path).value;
      && c.outcome == r.labels[path].outcome && c.expected == r.labels[path].value && c.expectedProvenance == r.labels[path].provenance
      && c.actual == Said(r, path) && (c.wired == Some(false) <==> InputMissing(r, path)) && (c.wired.Some? <==> GapApplies(path))
  {
    hide ScoredPaths;
  }

  lemma GradedShares(r: Evaluated, path: Path)
    requires path in ScoredPaths()
    ensures Weight(D(path, Correctness), r) == Weight(D(path, Abstention), r) == Weight(D(path, ConfidentlyWrong), r) == Bit(Findable(r, path))
    ensures Weight(N(path, Correctness), r) == Bit(Findable(r, path) && SaidTheLabel(r, path))
    ensures Weight(N(path, Abstention), r) == Bit(Findable(r, path) && !SaidSomething(r, path))
    ensures Weight(N(path, ConfidentlyWrong), r) == Bit(Findable(r, path) && SaidOtherwise(r, path))
    ensures Weight(D(path, ProvenanceRight), r) == Bit(Findable(r, path) && SaidSomething(r, path))
    ensures Weight(N(path, ProvenanceRight), r) == Bit(Findable(r, path) && SaidSomething(r, path) && ProvenanceAgrees(r, path))
  {
    CaseIsAnswered(r, path);
    hide ScoredPaths, CaseOf, GapApplies, InputMissing;
  }

  lemma LabelShares(r: Evaluated, path: Path, o: Outcome)
    requires path in ScoredPaths()
    ensures Weight(O(path, o), r) == Bit(Labelled(r, path, o))
    ensures Weight(D(path, Gap), r) == Bit(Labelled(r, path, PresentSupported) && GapApplies(path))
    ensures Weight(N(path, Gap), r) == Bit(Labelled(r, path, PresentSupported) && InputMissing(r, path))
  {
    CaseIsAnswered(r, path);
    hide ScoredPaths, CaseOf, GapApplies, InputMissing;
  }

  // The metric of false positives among an outcome's labels.
  function FalsePositive(o: Outcome): Metric {
    match o
    case Absent => FalseAbsent
    case PresentUnsupportedForm => FalseUnsupported
    case _ => FalseAmbiguous
  }

  lemma FalsePositiveShares(r: Evaluated, path: Path, o: Outcome)
    requires path in ScoredPaths() && o != PresentSupported
    ensures Weight(D(path, FalsePositive(o)), r) == Bit(Labelled(r, path, o))
    ensures Weight(N(path, FalsePositive(o)), r) == Bit(Labelled(r, path, o) && SaidSomething(r, path))
  {
    CaseIsAnswered(r, path);
    hide ScoredPaths, CaseOf, GapApplies, InputMissing;
  }

  // ---------- What the numbers of a component count ----------

  /** Correct, abstained and confidently wrong, of the records in which there was a value to be found. */
  lemma GradedNumbersCount(path: Path, records: seq<Evaluated>)
    requires path in ScoredPaths()
    ensures Total(D(path, Correctness), records) == HowMany(records, r => Findable(r, path))
    ensures Total(D(path, Abstention), records) == HowMany(records, r => Findable(r, path))
    ensures Total(D(path, ConfidentlyWrong), records) == HowMany(records, r => Findable(r, path))
    ensures Total(N(path, Correctness), records) == HowMany(records, r => Findable(r, path) && SaidTheLabel(r, path))
    ensures Total(N(path, Abstention), records) == HowMany(records, r => Findable(r, path) && !SaidSomething(r, path))
    ensures Total(N(path, ConfidentlyWrong), records) == HowMany(records, r => Findable(r, path) && SaidOtherwise(r, path))
    ensures Total(D(path, ProvenanceRight), records) == HowMany(records, r => Findable(r, path) && SaidSomething(r, path))
    ensures Total(N(path, ProvenanceRight), records)
         == HowMany(records, r => Findable(r, path) && SaidSomething(r, path) && ProvenanceAgrees(r, path))
  {
    forall r {
      GradedShares(r, path);
    }
    hide Weight, Total, HowMany, Findable, SaidSomething, SaidTheLabel, SaidOtherwise, ProvenanceAgrees, ScoredPaths;
    TotalCounts(D(path, Correctness), records, r => Findable(r, path));
    TotalCounts(D(path, Abstention), records, r => Findable(r, path));
    TotalCounts(D(path, ConfidentlyWrong), records, r => Findable(r, path));
    TotalCounts(N(path, Correctness), records, r => Findable(r, path) && SaidTheLabel(r, path));
    TotalCounts(N(path, Abstention), records, r => Findable(r, path) && !SaidSomething(r, path));
    TotalCounts(N(path, ConfidentlyWrong), records, r => Findable(r, path) && SaidOtherwise(r, path));
    TotalCounts(D(path, ProvenanceRight), records, r => Findable(r, path) && SaidSomething(r, path));
    TotalCounts(N(path, ProvenanceRight), records, r => Findable(r, path) && SaidSomething(r, path) && ProvenanceAgrees(r, path));
  }

  /** Opportunities are the labels, and gaps the supported ones for want of the parser's input. */
  lemma LabelNumbersCount(path: Path, records: seq<Evaluated>, o: Outcome)
    requires path in ScoredPaths()
    ensures Total(O(path, o), records) == HowMany(records, r => Labelled(r, path, o))
    ensures Total(D(path, Gap), records) == HowMany(records, r => Labelled(r, path, PresentSupported) && GapApplies(path))
    ensures Total(N(path, Gap), records) == HowMany(records, r => Labelled(r, path, PresentSupported) && InputMissing(r, path))
  {
    forall r {
      LabelShares(r, path, o);
    }
    hide Weight, Total, HowMany, Labelled, SaidSomething, InputMissing, GapApplies, ScoredPaths;
    TotalCounts(O(path, o), records, r => Labelled(r, path, o));
    TotalCounts(D(path, Gap), records, r => Labelled(r, path, PresentSupported) && GapApplies(path));
    TotalCounts(N(path, Gap), records, r => Labelled(r, path, PresentSupported) && InputMissing(r, path));
  }

  /** A false positive of an outcome is something said where the label says so. */
  lemma FalsePositivesCount(path: Path, records: seq<Evaluated>, o: Outcome)
    requires path in ScoredPaths() && o != PresentSupported
    ensures Total(D(path, FalsePositive(o)), records) == HowMany(records, r => Labelled(r, path, o))
    ensures Total(N(path, FalsePositive(o)), records) == HowMany(records, r => Labelled(r, path, o) && SaidSomething(r, path))
  {
    forall r {
      FalsePositiveShares(r, path, o);
    }
    hide Weight, Total, HowMany, Labelled, SaidSomething, ScoredPaths;
    TotalCounts(D(path, FalsePositive(o)), records, r => Labelled(r, path, o));
    TotalCounts(N(path, FalsePositive(o)), records, r => Labelled(r, path, o) && SaidSomething(r, path));
  }

  // ---------- Of one split, of one employer ----------

  /** A number of one split counts that split's records of the whole corpus. */
  lemma {:induction false} SplitCounts(q: Query, records: seq<Evaluated>, split: Split, p: Evaluated -> bool)
    requires forall i :: 0 <= i < |records| ==> Weight(q, records[i]) == if p(records[i]) then 1 else 0
    ensures Total(q, OfSplit(records, split)) == HowMany(records, (r: Evaluated) => r.split == split && p(r))
  {
    hide Weight, Total, HowMany;
    OneRecordMore(records, (r: Evaluated) => r.split == split && p(r));
    TotalLast(q, []);
    if records != [] {
      var n := |records| - 1;
      SplitCounts(q, records[..n], split, p);
      TotalIf(q, OfSplit(records[..n], split), records[n], records[n].split == split);
    }
  }

  /** And a number of one employer that employer's. */
  lemma {:induction false} EmployerCounts(q: Query, records: seq<Evaluated>, employer: string, p: Evaluated -> bool)
    requires forall i :: 0 <= i < |records| ==> Weight(q, records[i]) == if p(records[i]) then 1 else 0
    ensures Total(q, OfEmployer(records, employer)) == HowMany(records, (r: Evaluated) => r.employer == employer && p(r))
  {
    hide Weight, Total, HowMany;
    OneRecordMore(records, (r: Evaluated) => r.employer == employer && p(r));
    TotalLast(q, []);
    if records != [] {
      var n := |records| - 1;
      EmployerCounts(q, records[..n], employer, p);
      TotalIf(q, OfEmployer(records[..n], employer), records[n], records[n].employer == employer);
    }
  }

  // ---------- When a component's numbers are perfect ----------

  /** A component is reported all correct exactly when every value that was there to be found was said; then
      nothing is confidently wrong and nothing abstained from. */
  lemma PerfectExactly(path: Path, records: seq<Evaluated>)
    requires path in ScoredPaths()
    ensures Total(N(path, Correctness), records) == Total(D(path, Correctness), records)
      <==> forall i :: 0 <= i < |records| && Findable(records[i], path) ==> SaidTheLabel(records[i], path)
    ensures Total(N(path, Correctness), records) == Total(D(path, Correctness), records) ==>
      Total(N(path, ConfidentlyWrong), records) == 0 && Total(N(path, Abstention), records) == 0
  {
    hide Total, HowMany, Findable, ScoredPaths;
    GradedNumbersCount(path, records);
    SameCount(records, r => Findable(r, path) && SaidTheLabel(r, path), r => Findable(r, path));
    WrongExactly(path, records);
  }

  /** And confidently wrong at all exactly when some such value was not the one said. */
  lemma WrongExactly(path: Path, records: seq<Evaluated>)
    requires path in ScoredPaths()
    ensures Total(N(path, ConfidentlyWrong), records) > 0
      <==> exists i :: 0 <= i < |records| && Findable(records[i], path) && SaidOtherwise(records[i], path)
    ensures Total(N(path, Abstention), records) > 0
      <==> exists i :: 0 <= i < |records| && Findable(records[i], path) && !SaidSomething(records[i], path)
    ensures Total(N(path, Correctness), records) > 0
      <==> exists i :: 0 <= i < |records| && Findable(records[i], path) && SaidTheLabel(records[i], path)
  {
    GradedNumbersCount(path, records);
    AnyCount(records, r => Findable(r, path) && SaidOtherwise(r, path));
    AnyCount(records, r => Findable(r, path) && !SaidSomething(r, path));
    AnyCount(records, r => Findable(r, path) && SaidTheLabel(r, path));
    hide Total, HowMany, Findable, SaidOtherwise, SaidSomething, SaidTheLabel, ScoredPaths;
  }

  /** No false positive of an outcome exactly when nothing was said where the label says so. */
  lemma NoFalsePositiveExactly(path: Path, records: seq<Evaluated>, o: Outcome)
    requires path in ScoredPaths() && o != PresentSupported
    ensures Total(N(path, FalsePositive(o)), records) == 0
      <==> forall i :: 0 <= i < |records| && Labelled(records[i], path, o) ==> !SaidSomething(records[i], path)
  {
    hide Total, HowMany, Labelled, SaidSomething, ScoredPaths;
    FalsePositivesCount(path, records, o);
    AnyCount(records, r => Labelled(r, path, o) && SaidSomething(r, path));
  }

  /** Provenance is all right exactly when it agrees wherever a value there to be found was said. */
  lemma ProvenanceRightExactly(path: Path, records: seq<Evaluated>)
    requires path in ScoredPaths()
    ensures Total(N(path, ProvenanceRight), records) == Total(D(path, ProvenanceRight), records)
      <==> forall i :: 0 <= i < |records| && Findable(records[i], path) && SaidSomething(records[i], path) ==>
             ProvenanceAgrees(records[i], path)
  {
    hide Total, HowMany, Findable, SaidSomething, SaidTheLabel, SaidOtherwise, ProvenanceAgrees, ScoredPaths;
    GradedNumbersCount(path, records);
    SameCount(records, r => Findable(r, path) && SaidSomething(r, path) && ProvenanceAgrees(r, path),
              r => Findable(r, path) && SaidSomething(r, path));
  }

  // ---------- Invocations ----------

  /** Every parser is invoked once a record, and failed as often as it raised. */
  lemma RuntimeNumbersCount(p: Parser, records: seq<Evaluated>)
    requires p in Parsers()
    ensures Total(Invocations(p.name), records) == |records|
    ensures Total(Failures(p.name), records) == HowMany(records, (r: Evaluated) => p.name in r.runs && r.runs[p.name].Raised?)
  {
    forall r {
      RuntimeShares(p, r);
    }
    hide Weight, Total, HowMany, Parsers;
    TotalCounts(Invocations(p.name), records, r => true);
    EveryOne(records);
    TotalCounts(Failures(p.name), records, (r: Evaluated) => p.name in r.runs && r.runs[p.name].Raised?);
  }

  lemma SkillsRuntimeCounts(records: seq<Evaluated>)
    ensures Total(Invocations("skills"), records) == |records|
    ensures Total(Failures("skills"), records) == HowMany(records, (r: Evaluated) => r.skills.SkillsRaised?)
  {
    forall r {
      RuntimeShares(Parsers()[0], r);
    }
    hide Weight, Total, HowMany, Parsers;
    TotalCounts(Invocations("skills"), records, r => true);
    EveryOne(records);
    TotalCounts(Failures("skills"), records, (r: Evaluated) => r.skills.SkillsRaised?);
  }

  lemma RuntimeShares(p: Parser, r: Evaluated)
    requires p in Parsers()
    ensures Weight(Invocations(p.name), r) == 1 && Weight(Invocations("skills"), r) == 1
    ensures Weight(Failures(p.name), r) == Bit(p.name in r.runs && r.runs[p.name].Raised?)
    ensures Weight(Failures("skills"), r) == Bit(r.skills.SkillsRaised?)
  {
    InParsers(p);
    NotSkills(p);
    hide Parsers, IdWeights, CaseOf;
  }

  lemma NotSkills(p: Parser)
    requires p in Parsers()
    ensures p.name != "skills"
  {
  }

  lemma {:induction false} EveryOne(records: seq<Evaluated>)
    ensures HowMany(records, r => true) == |records|
  {
    OneRecordMore(records, r => true);
    if records != [] {
      EveryOne(records[..|records| - 1]);
    }
  }

  // ---------- Skills ----------

  // The ids labelled with an outcome.
  function IdsLabelled(r: Evaluated, o: Outcome): set<string> {
    set path | path in r.labels && path.SkillPath? && r.labels[path].outcome == o :: path.id
  }

  lemma {:induction false} SumOfBits(ids: set<string>, bits: map<string, nat>, hits: set<string>)
    requires bits.Keys == ids && hits <= ids
    requires forall id :: id in ids ==> bits[id] == if id in hits then 1 else 0
    ensures Sum(bits) == |hits|
    decreases ids
  {
    if id :| id in ids {
      SumRemove(bits, id);
      SumOfBits(ids - {id}, bits - {id}, hits - {id});
      assert id in hits ==> |hits - {id}| == |hits| - 1;
      assert id !in hits ==> hits - {id} == hits;
    } else {
      assert bits == map[] && hits == {};
    }
  }

  lemma WeightsAre(q: Query, r: Evaluated, ids: set<string>, labelled: bool, hits: set<string>)
    requires r.skills.SkillsReturned? && hits <= ids
    requires forall id :: id in ids ==> IdWeight(q, r, id, labelled) == if id in hits then 1 else 0
    ensures IdWeights(q, r, ids, labelled) == |hits|
  {
    hide Sum, IdWeight;
    SumOfBits(ids, map id | id in ids :: IdWeight(q, r, id, labelled), hits);
  }

  lemma IdsLabelledAre(r: Evaluated, o: Outcome, all: set<string>)
    requires Complete(r, all)
    ensures IdsLabelled(r, o) <= LabelledIds(r) == all
    ensures forall id :: id in IdsLabelled(r, o) <==> SkillOutcome(r, id) == Some(o)
  {
    hide Parsers, Components, LabelPaths;
    LabelledAre(r, all);
  }

  predicate AboutSkills(q: Query) {
    q.SkillDenominator? || q.SkillNumerator? || q.SkillOpportunities?
  }

  // What both loops of a returning skills parser add: ids, as many as are in these sets.
  lemma LoopsCount(q: Query, r: Evaluated, labelled: set<string>, returned: set<string>)
    requires r.skills.SkillsReturned? && AboutSkills(q) && labelled <= LabelledIds(r) && returned <= r.skills.ids
    requires forall id :: id in LabelledIds(r) ==> IdWeight(q, r, id, true) == Bit(id in labelled)
    requires forall id :: id in r.skills.ids ==> IdWeight(q, r, id, false) == Bit(id in returned)
    ensures Weight(q, r) == |labelled| + |returned|
  {
    hide IdWeight, IdWeights, LabelledIds;
    WeightsAre(q, r, LabelledIds(r), true, labelled);
    WeightsAre(q, r, r.skills.ids, false, returned);
  }

  lemma LabelledDenominator(r: Evaluated, all: set<string>, m: SkillMetric)
    requires Complete(r, all) && r.skills.SkillsReturned? && !OverReturned(m)
    ensures Weight(SkillDenominator(m), r) == |IdsLabelled(r, OutcomeOf(m))|
  {
    IdsLabelledAre(r, OutcomeOf(m), all);
    hide Complete, IdsLabelled, LabelledIds, Weight, OutcomeOf;
    LoopsCount(SkillDenominator(m), r, IdsLabelled(r, OutcomeOf(m)), {});
  }

  lemma LabelledNumerator(r: Evaluated, all: set<string>, m: SkillMetric)
    requires Complete(r, all) && r.skills.SkillsReturned? && !OverReturned(m)
    ensures Weight(SkillNumerator(m), r) == |IdsLabelled(r, OutcomeOf(m)) * r.skills.ids|
  {
    IdsLabelledAre(r, OutcomeOf(m), all);
    hide Complete, IdsLabelled, LabelledIds, Weight, OutcomeOf;
    LoopsCount(SkillNumerator(m), r, IdsLabelled(r, OutcomeOf(m)) * r.skills.ids, {});
  }

  lemma LabelledOpportunities(r: Evaluated, all: set<string>, o: Outcome)
    requires Complete(r, all) && r.skills.SkillsReturned?
    ensures Weight(SkillOpportunities(o), r) == |IdsLabelled(r, o)|
  {
    IdsLabelledAre(r, o, all);
    hide Complete, IdsLabelled, LabelledIds, Weight;
    LoopsCount(SkillOpportunities(o), r, IdsLabelled(r, o), {});
  }

  lemma PrecisionShares(r: Evaluated, all: set<string>)
    requires Complete(r, all) && r.skills.SkillsReturned?
    ensures Weight(SkillDenominator(Precision), r) == |r.skills.ids|
    ensures Weight(SkillNumerator(Precision), r) == |IdsLabelled(r, PresentSupported) * r.skills.ids|
  {
    IdsLabelledAre(r, PresentSupported, all);
    hide Complete, IdsLabelled, LabelledIds, Weight;
    LoopsCount(SkillDenominator(Precision), r, {}, r.skills.ids);
    LoopsCount(SkillNumerator(Precision), r, {}, IdsLabelled(r, PresentSupported) * r.skills.ids);
  }

  lemma OutsideWeight(r: Evaluated, id: string, labelled: bool)
    requires r.skills.SkillsReturned?
    ensures IdWeight(SkillDenominator(OutsideFrozenSet), r, id, labelled) == Bit(!labelled)
    ensures IdWeight(SkillNumerator(OutsideFrozenSet), r, id, labelled)
         == Bit(!labelled && SkillOutcome(r, id) != Some(PresentSupported))
  {
  }

  lemma OutsideShares(r: Evaluated, all: set<string>)
    requires Complete(r, all) && r.skills.SkillsReturned?
    ensures Weight(SkillDenominator(OutsideFrozenSet), r) == |r.skills.ids|
    ensures Weight(SkillNumerator(OutsideFrozenSet), r) == |r.skills.ids - IdsLabelled(r, PresentSupported)|
  {
    IdsLabelledAre(r, PresentSupported, all);
    hide Complete, IdsLabelled, LabelledIds, Weight;
    forall id, labelled {
      OutsideWeight(r, id, labelled);
    }
    hide IdWeight;
    LoopsCount(SkillDenominator(OutsideFrozenSet), r, {}, r.skills.ids);
    LoopsCount(SkillNumerator(OutsideFrozenSet), r, {}, r.skills.ids - IdsLabelled(r, PresentSupported));
  }

  lemma RaisedAddsNothing(q: Query, r: Evaluated)
    requires r.skills.SkillsRaised? && AboutSkills(q)
    ensures Weight(q, r) == 0
  {
  }

  /** What a record whose skills parser returned adds to the skills numbers, in sets of ids: recall and the
      false positives run over the labels, precision and its complement over the returned ids. */
  lemma SkillNumbersCount(r: Evaluated, all: set<string>, o: Outcome)
    requires Complete(r, all) && r.skills.SkillsReturned?
    ensures var ids, supported := r.skills.ids, IdsLabelled(r, PresentSupported);
            && Weight(SkillNumerator(Precision), r) == |supported * ids| && Weight(SkillDenominator(Precision), r) == |ids|
            && Weight(SkillNumerator(OutsideFrozenSet), r) == |ids - supported| && Weight(SkillDenominator(OutsideFrozenSet), r) == |ids|
            && Weight(SkillNumerator(Recall), r) == |supported * ids| && Weight(SkillDenominator(Recall), r) == |supported|
    ensures Weight(SkillOpportunities(o), r) == |IdsLabelled(r, o)|
  {
    hide Complete, IdsLabelled, Weight;
    PrecisionShares(r, all);
    OutsideShares(r, all);
    LabelledOpportunities(r, all, o);
    LabelledDenominator(r, all, Recall);
    LabelledNumerator(r, all, Recall);
  }

  // The false positives of an id's other outcomes.
  lemma SkillFalsePositivesCount(r: Evaluated, all: set<string>)
    requires Complete(r, all) && r.skills.SkillsReturned?
    ensures Weight(SkillNumerator(SkillFalseAbsent), r) == |IdsLabelled(r, Absent) * r.skills.ids|
    ensures Weight(SkillNumerator(SkillFalseUnsupported), r) == |IdsLabelled(r, PresentUnsupportedForm) * r.skills.ids|
    ensures Weight(SkillNumerator(SkillFalseAmbiguous), r) == |IdsLabelled(r, Ambiguous) * r.skills.ids|
    ensures Weight(SkillDenominator(SkillFalseAbsent), r) == |IdsLabelled(r, Absent)|
    ensures Weight(SkillDenominator(SkillFalseUnsupported), r) == |IdsLabelled(r, PresentUnsupportedForm)|
    ensures Weight(SkillDenominator(SkillFalseAmbiguous), r) == |IdsLabelled(r, Ambiguous)|
  {
    hide Complete, IdsLabelled, Weight;
    LabelledDenominator(r, all, SkillFalseAbsent);
    LabelledDenominator(r, all, SkillFalseUnsupported);
    LabelledDenominator(r, all, SkillFalseAmbiguous);
    LabelledNumerator(r, all, SkillFalseAbsent);
    LabelledNumerator(r, all, SkillFalseUnsupported);
    LabelledNumerator(r, all, SkillFalseAmbiguous);
  }

  // What a record's skills parser got wrong.
  predicate Overreached(r: Evaluated) {
    r.skills.SkillsReturned? && exists id :: id in r.skills.ids && id !in IdsLabelled(r, PresentSupported)
  }

  predicate Overlooked(r: Evaluated) {
    r.skills.SkillsReturned? && exists id :: id in IdsLabelled(r, PresentSupported) && id !in r.skills.ids
  }

  lemma RecordIsFull(r: Evaluated, all: set<string>)
    requires Complete(r, all)
    ensures Weight(SkillNumerator(Precision), r) <= Weight(SkillDenominator(Precision), r)
    ensures Weight(SkillNumerator(Precision), r) == Weight(SkillDenominator(Precision), r) <==> !Overreached(r)
    ensures Weight(SkillNumerator(Recall), r) <= Weight(SkillDenominator(Recall), r)
    ensures Weight(SkillNumerator(Recall), r) == Weight(SkillDenominator(Recall), r) <==> !Overlooked(r)
  {
    hide Weight, Complete, IdsLabelled;
    if r.skills.SkillsReturned? {
      SkillNumbersCount(r, all, Absent);
      var ids, supported := r.skills.ids, IdsLabelled(r, PresentSupported);
      PartOf(supported * ids, ids);
      PartOf(supported * ids, supported);
    } else {
      RaisedAddsNothing(SkillNumerator(Precision), r);
      RaisedAddsNothing(SkillDenominator(Precision), r);
      RaisedAddsNothing(SkillNumerator(Recall), r);
      RaisedAddsNothing(SkillDenominator(Recall), r);
    }
  }

  lemma PartOf(some: set<string>, all: set<string>)
    requires some <= all
    ensures |some| <= |all| && (|some| == |all| <==> forall x :: x in all ==> x in some)
  {
    assert |all - some| == |all| - |some|;
    if |some| == |all| {
      assert all - some == {};
      forall x | x in all ensures x in some {
        assert x !in all - some;
      }
    }
    if forall x :: x in all ==> x in some {
      assert some == all;
    }
  }

  /** Precision is perfect exactly when no record's parser returned an id not labelled as supported, recall
      exactly when none left out one that is. */
  lemma {:induction false} SkillsPerfectExactly(records: seq<Evaluated>, all: set<string>)
    requires AllComplete(records, all)
    ensures Total(SkillNumerator(Precision), records) <= Total(SkillDenominator(Precision), records)
    ensures Total(SkillNumerator(Recall), records) <= Total(SkillDenominator(Recall), records)
    ensures Total(SkillNumerator(Precision), records) == Total(SkillDenominator(Precision), records)
      <==> forall i :: 0 <= i < |records| ==> !Overreached(records[i])
    ensures Total(SkillNumerator(Recall), records) == Total(SkillDenominator(Recall), records)
      <==> forall i :: 0 <= i < |records| ==> !Overlooked(records[i])
  {
    hide Weight, Complete, Overreached, Overlooked;
    if records != [] {
      var n := |records| - 1;
      SkillsPerfectExactly(records[..n], all);
      RecordIsFull(records[n], all);
    }
  }
}
