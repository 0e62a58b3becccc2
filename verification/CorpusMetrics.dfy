/** The metrics engine: every counter it reports, what the counters conserve, and how they add up over
    splits, employers and record orders. */
module CorpusMetrics {
  import opened Options
  import opened CorpusLabels
  import opened Sums

  datatype Actual = Actual(value: Option<Value>, provenance: Provenance)

  // What invoking a parser on a record came to.
  datatype Run = Raised | Returned(actuals: map<Path, Actual>)
  datatype SkillsRun = SkillsRaised | SkillsReturned(ids: set<string>)

  datatype Evaluated = Evaluated(
    employer: string, split: Split, labels: map<Path, Label>, runs: map<string, Run>, skills: SkillsRun,
    compensationPresent: bool, locationPresent: bool)

  datatype Parser = Parser(name: string, paths: seq<Path>)

  function Parsers(): seq<Parser> {
    [Parser("remote_type", [ScalarPath("remote_type")]),
     Parser("employment_type", [ScalarPath("employment_type")]),
     Parser("seniority", [ScalarPath("seniority")]),
     Parser("experience", [ComponentPath("experience", "minimum"), ComponentPath("experience", "maximum")]),
     Parser("salary", [ComponentPath("salary", "minimum"), ComponentPath("salary", "maximum"),
                       ComponentPath("salary", "currency"), ComponentPath("salary", "period")]),
     Parser("location", [ComponentPath("location", "city"), ComponentPath("location", "state"),
                         ComponentPath("location", "country"), ComponentPath("location", "postal_code")])]
  }

  function ParserOf(path: Path): string {
    match path case ScalarPath(p) => p case ComponentPath(p, _) => p case SkillPath(_) => "skills"
  }

  // The component paths that are scored, by parser.
  function ScoredPaths(): set<Path> {
    (set s | s in SCALARS :: ScalarPath(s)) + Components()
  }

  // A parser with exactly its own components, each once.
  ghost predicate Listed(p: Parser) {
    && p.name != "skills"
    && (forall i, j :: 0 <= i < j < |p.paths| ==> p.paths[i] != p.paths[j])
    && (forall path :: path in p.paths <==> path in ScoredPaths() && ParserOf(path) == p.name)
  }

  ghost predicate IsParser(name: string) {
    name == "skills" || exists i :: 0 <= i < |Parsers()| && Parsers()[i].name == name
  }

  // ---------- One scored case ----------

  datatype Case = Case(outcome: Outcome, expected: Option<Value>, expectedProvenance: Provenance, actual: Actual, wired: Option<bool>)

  datatype Metric = Correctness | Abstention | ConfidentlyWrong | FalseAbsent | FalseUnsupported | FalseAmbiguous | ProvenanceRight | Gap

  // Supported, and not for want of the wired input.
  predicate Gradable(c: Case) {
    c.outcome.PresentSupported? && c.wired != Some(false)
  }

  /** Which cases a metric counts. */
  predicate InMetric(m: Metric, c: Case) {
    match m
    case FalseAbsent => c.outcome.Absent?
    case FalseUnsupported => c.outcome.PresentUnsupportedForm?
    case FalseAmbiguous => c.outcome.Ambiguous?
    case ProvenanceRight => Gradable(c) && c.actual.value.Some?
    case Gap => c.outcome.PresentSupported? && c.wired.Some?
    case _ => Gradable(c)
  }

  /** Which of those are hits. */
  predicate HitMetric(m: Metric, c: Case) {
    match m
    case Correctness => c.actual.value.Some? && c.actual.value == c.expected
    case Abstention => c.actual.value.None?
    case ConfidentlyWrong => c.actual.value.Some? && c.actual.value != c.expected
    case ProvenanceRight => c.actual.provenance == c.expectedProvenance
    case Gap => c.wired == Some(false)
    case _ => c.actual.value.Some?
  }

  function WiredInput(r: Evaluated, parser: string): Option<bool> {
    if parser == "salary" then Some(r.compensationPresent)
    else if parser == "location" then Some(r.locationPresent)
    else None
  }

  // A record whose labels are exhaustive and whose parsers report on every component.
  ghost predicate Complete(r: Evaluated, skills: set<string>) {
    && r.labels.Keys == LabelPaths(skills)
    && (forall path :: path in r.labels ==> KindFits(path, r.labels[path]))
    && (forall p :: p in Parsers() ==> p.name in r.runs)
    && (forall p, path :: p in Parsers() && path in p.paths && p.name in r.runs && r.runs[p.name].Returned? ==>
          path in r.runs[p.name].actuals)
    && (r.skills.SkillsReturned? ==> r.skills.ids <= skills)
  }

  // The case a record offers for a component; none when its parser raised.
  function CaseOf(r: Evaluated, path: Path): Option<Case> {
    var run := if ParserOf(path) in r.runs then r.runs[ParserOf(path)] else Raised;
    if path !in ScoredPaths() || run.Raised? || path !in run.actuals || path !in r.labels || !r.labels[path].ScoredLabel? then None
    else Some(Case(r.labels[path].outcome, r.labels[path].value, r.labels[path].provenance, run.actuals[path],
                   WiredInput(r, ParserOf(path))))
  }

  // ---------- The counters, one by one ----------

  datatype SkillMetric = Precision | Recall | SkillFalseAbsent | SkillFalseUnsupported | SkillFalseAmbiguous | OutsideFrozenSet

  /** One number of a report. */
  datatype Query =
    | Denominator(path: Path, metric: Metric)
    | Numerator(path: Path, metric: Metric)
    | Opportunities(path: Path, outcome: Outcome)
    | Invocations(parser: string)
    | Failures(parser: string)
    | SkillDenominator(skillMetric: SkillMetric)
    | SkillNumerator(skillMetric: SkillMetric)
    | SkillOpportunities(outcome: Outcome)

  function Bit(b: bool): nat {
    if b then 1 else 0
  }

  // What one case adds to a number of its own component.
  function CaseWeight(q: Query, c: Case): nat {
    match q
    case Denominator(_, m) => Bit(InMetric(m, c))
    case Numerator(_, m) => Bit(InMetric(m, c) && HitMetric(m, c))
    case Opportunities(_, o) => Bit(c.outcome == o)
    case _ => 0
  }

  function SkillOutcome(r: Evaluated, id: string): Option<Outcome> {
    if SkillPath(id) in r.labels then Some(r.labels[SkillPath(id)].outcome) else None
  }

  function OutcomeOf(m: SkillMetric): Outcome {
    match m
    case SkillFalseAbsent => Absent
    case SkillFalseUnsupported => PresentUnsupportedForm
    case SkillFalseAmbiguous => Ambiguous
    case _ => PresentSupported
  }

  // Precision and the outside-the-frozen-set metric run over the returned ids, all others over the labels.
  predicate OverReturned(m: SkillMetric) {
    m.Precision? || m.OutsideFrozenSet?
  }

  // What one id adds to a skills number, `labelled` saying which of the two loops it is met in.
  function IdWeight(q: Query, r: Evaluated, id: string, labelled: bool): nat
    requires r.skills.SkillsReturned?
  {
    var outcome, returned := SkillOutcome(r, id), id in r.skills.ids;
    match q
    case SkillDenominator(m) =>
      if OverReturned(m) then Bit(!labelled) else Bit(labelled && outcome == Some(OutcomeOf(m)))
    case SkillNumerator(m) =>
      if m.Precision? then Bit(!labelled && outcome == Some(PresentSupported))
      else if m.OutsideFrozenSet? then Bit(!labelled && outcome != Some(PresentSupported))
      else Bit(labelled && outcome == Some(OutcomeOf(m)) && returned)
    case SkillOpportunities(o) => Bit(labelled && outcome == Some(o))
    case _ => 0
  }

  function LabelledIds(r: Evaluated): set<string> {
    set path | path in r.labels && path.SkillPath? :: path.id
  }

  ghost function IdWeights(q: Query, r: Evaluated, ids: set<string>, labelled: bool): nat
    requires r.skills.SkillsReturned?
  {
    Sum(map id | id in ids :: IdWeight(q, r, id, labelled))
  }

  predicate AboutComponent(q: Query) {
    q.Denominator? || q.Numerator? || q.Opportunities?
  }

  // The parser a number belongs to.
  function QueryParser(q: Query): string {
    if AboutComponent(q) then ParserOf(q.path) else if q.Invocations? || q.Failures? then q.parser else "skills"
  }

  function RaisedBy(r: Evaluated, parser: string): bool {
    if parser == "skills" then r.skills.SkillsRaised? else parser in r.runs && r.runs[parser].Raised?
  }

  /** What one record adds to a number. */
  ghost function Weight(q: Query, r: Evaluated): nat {
    if AboutComponent(q) then (if CaseOf(r, q.path).Some? then CaseWeight(q, CaseOf(r, q.path).value) else 0)
    else if q.Invocations? then Bit(IsParser(q.parser))
    else if q.Failures? then Bit(IsParser(q.parser) && RaisedBy(r, q.parser))
    else if r.skills.SkillsRaised? then 0
    else IdWeights(q, r, LabelledIds(r), true) + IdWeights(q, r, r.skills.ids, false)
  }

  ghost function Total(q: Query, records: seq<Evaluated>): nat {
    if records == [] then 0 else Total(q, records[..|records| - 1]) + Weight(q, records[|records| - 1])
  }

  // ---------- The evaluation object ----------

  datatype MetricCounter = MetricCounter(numerator: nat, denominator: nat)
  {
    function Add(hit: bool): MetricCounter {
      MetricCounter(numerator + Bit(hit), denominator + 1)
    }
  }

  const ZERO := MetricCounter(0, 0)

  datatype ComponentMetrics = ComponentMetrics(
    opportunities: map<Outcome, nat>, correctness: MetricCounter, abstention: MetricCounter, wrong: MetricCounter,
    absent: MetricCounter, unsupported: MetricCounter, ambiguous: MetricCounter, provenance: MetricCounter, gap: MetricCounter)

  const NO_METRICS := ComponentMetrics(map[], ZERO, ZERO, ZERO, ZERO, ZERO, ZERO, ZERO, ZERO)

  function Of(m: ComponentMetrics, metric: Metric): MetricCounter {
    match metric
    case Correctness => m.correctness
    case Abstention => m.abstention
    case ConfidentlyWrong => m.wrong
    case FalseAbsent => m.absent
    case FalseUnsupported => m.unsupported
    case FalseAmbiguous => m.ambiguous
    case ProvenanceRight => m.provenance
    case Gap => m.gap
  }

  datatype SkillsMetrics = SkillsMetrics(
    opportunities: map<Outcome, nat>, precision: MetricCounter, recall: MetricCounter, absent: MetricCounter,
    unsupported: MetricCounter, ambiguous: MetricCounter, outside: MetricCounter)

  function OfSkills(m: SkillsMetrics, metric: SkillMetric): MetricCounter {
    match metric
    case Precision => m.precision
    case Recall => m.recall
    case SkillFalseAbsent => m.absent
    case SkillFalseUnsupported => m.unsupported
    case SkillFalseAmbiguous => m.ambiguous
    case OutsideFrozenSet => m.outside
  }

  function Times(opportunities: map<Outcome, nat>, o: Outcome): nat {
    if o in opportunities then opportunities[o] else 0
  }

  function Once(opportunities: map<Outcome, nat>, o: Outcome): map<Outcome, nat> {
    opportunities[o := Times(opportunities, o) + 1]
  }

  function Counted(before: MetricCounter, metric: Metric, c: Case): MetricCounter {
    if InMetric(metric, c) then before.Add(HitMetric(metric, c)) else before
  }

  // One component's metrics after one more case, branch by branch.
  method Score(before: ComponentMetrics, c: Case) returns (m: ComponentMetrics)
    ensures forall metric :: Of(m, metric) == Counted(Of(before, metric), metric, c)
    ensures m.opportunities == Once(before.opportunities, c.outcome)
  {
    m := before.(opportunities := Once(before.opportunities, c.outcome));
    var isPresent := c.actual.value.Some?;
    match c.outcome {
      case PresentSupported =>
        if c.wired.Some? {
          m := m.(gap := m.gap.Add(!c.wired.value));
        }
        if c.wired != Some(false) {
          m := m.(abstention := m.abstention.Add(!isPresent));
          m := m.(wrong := m.wrong.Add(isPresent && c.actual.value != c.expected));
          m := m.(correctness := m.correctness.Add(isPresent && c.actual.value == c.expected));
          if isPresent {
            m := m.(provenance := m.provenance.Add(c.actual.provenance == c.expectedProvenance));
          }
        }
      case Absent => m := m.(absent := m.absent.Add(isPresent));
      case PresentUnsupportedForm => m := m.(unsupported := m.unsupported.Add(isPresent));
      case Ambiguous => m := m.(ambiguous := m.ambiguous.Add(isPresent));
    }
  }

  function LabelledCount(before: MetricCounter, metric: SkillMetric, outcome: Outcome, returned: bool): MetricCounter {
    if !OverReturned(metric) && outcome == OutcomeOf(metric) then before.Add(returned) else before
  }

  // The skills metrics after one more labelled id, branch by branch.
  method ScoreLabelled(before: SkillsMetrics, outcome: Outcome, returned: bool) returns (m: SkillsMetrics)
    ensures forall metric :: OfSkills(m, metric) == LabelledCount(OfSkills(before, metric), metric, outcome, returned)
    ensures m.opportunities == Once(before.opportunities, outcome)
  {
    m := before.(opportunities := Once(before.opportunities, outcome));
    match outcome {
      case PresentSupported => m := m.(recall := m.recall.Add(returned));
      case Absent => m := m.(absent := m.absent.Add(returned));
      case PresentUnsupportedForm => m := m.(unsupported := m.unsupported.Add(returned));
      case Ambiguous => m := m.(ambiguous := m.ambiguous.Add(returned));
    }
  }

  function RuntimeWeight(q: Query, parser: string, raised: bool): nat {
    if q == Invocations(parser) then 1 else if q == Failures(parser) then Bit(raised) else 0
  }

  // What one parser's invocation on a record adds.
  ghost function ParserWeight(q: Query, r: Evaluated, parser: string): nat {
    if QueryParser(q) == parser then Weight(q, r) else 0
  }

  lemma ParserWeightSplits(q: Query, r: Evaluated, p: Parser)
    requires Listed(p) && IsParser(p.name) && p.name in r.runs
    ensures ParserWeight(q, r, p.name) == RuntimeWeight(q, p.name, r.runs[p.name].Raised?)
      + WeightAmong(q, r, p.paths)
  {
    hide CaseWeight, IsParser, ScoredPaths;
  }

  ghost function WeightAmong(q: Query, r: Evaluated, paths: seq<Path>): nat {
    if AboutComponent(q) && q.path in paths then Weight(q, r) else 0
  }

  class SplitEvaluation {
    var components: map<Path, ComponentMetrics>
    var skills: SkillsMetrics
    var runtimeFailure: map<string, MetricCounter>

    function Component(path: Path): ComponentMetrics
      reads this
    {
      if path in components then components[path] else NO_METRICS
    }

    function RuntimeFailure(parser: string): MetricCounter
      reads this
    {
      if parser in runtimeFailure then runtimeFailure[parser] else ZERO
    }

    // Any number of the report.
    function Read(q: Query): nat
      reads this
    {
      match q
      case Denominator(path, m) => Of(Component(path), m).denominator
      case Numerator(path, m) => Of(Component(path), m).numerator
      case Opportunities(path, o) => Times(Component(path).opportunities, o)
      case Invocations(p) => RuntimeFailure(p).denominator
      case Failures(p) => RuntimeFailure(p).numerator
      case SkillDenominator(m) => OfSkills(skills, m).denominator
      case SkillNumerator(m) => OfSkills(skills, m).numerator
      case SkillOpportunities(o) => Times(skills.opportunities, o)
    }

    constructor ()
      ensures forall q :: Read(q) == 0
    {
      components, runtimeFailure := map[], map[];
      skills := SkillsMetrics(map[], ZERO, ZERO, ZERO, ZERO, ZERO, ZERO);
    }

    method ScoreComponent(path: Path, c: Case)
      modifies `components
      ensures forall q :: Read(q) == old(Read(q)) + if AboutComponent(q) && q.path == path then CaseWeight(q, c) else 0
    {
      hide InMetric, HitMetric;
      var before := Component(path);
      var after := Score(before, c);
      components := components[path := after];
    }

    method AddRuntime(parser: string, raised: bool)
      modifies `runtimeFailure
      ensures forall q :: Read(q) == old(Read(q)) + RuntimeWeight(q, parser, raised)
    {
      runtimeFailure := runtimeFailure[parser := RuntimeFailure(parser).Add(raised)];
    }

    // Scalar and composite parsers alike: one invocation, then every component unless it raised.
    method EvaluateParser(r: Evaluated, p: Parser, ghost all: set<string>)
      requires Complete(r, all) && p in Parsers() && Listed(p)
      modifies `components, `runtimeFailure
      ensures forall q :: Read(q) == old(Read(q)) + ParserWeight(q, r, p.name)
    {
      hide Parsers, ScoredPaths, LabelPaths, CaseWeight, Read, IsParser, WiredInput;
      InParsers(p);
      var run := r.runs[p.name];
      AddRuntime(p.name, run.Raised?);
      label Invoked:
      if run.Returned? {
        for i := 0 to |p.paths|
          invariant forall q :: Read(q) == old@Invoked(Read(q)) + WeightAmong(q, r, p.paths[..i])
        {
          var path := p.paths[i];
          assert path in p.paths;
          CaseIsThere(r, p, path, all);
          assert p.paths[..i + 1] == p.paths[..i] + [path] && path !in p.paths[..i];
          var c := CaseOf(r, path).value;
          ScoreComponent(path, c);
        }
        assert p.paths[..|p.paths|] == p.paths;
      } else {
        RaisedScoresNothing(r, p);
      }
      forall q
        ensures Read(q) == old(Read(q)) + ParserWeight(q, r, p.name)
      {
        ParserWeightSplits(q, r, p);
      }
    }

    // One id of the exhaustive labels: recall or one of the false-positive counters.
    method MeetLabelled(r: Evaluated, id: string)
      requires r.skills.SkillsReturned? && SkillPath(id) in r.labels
      modifies `skills
      ensures forall q :: Read(q) == old(Read(q)) + IdWeight(q, r, id, true)
    {
      hide IdWeight, Of, OfSkills, CaseWeight;
      var after := ScoreLabelled(skills, r.labels[SkillPath(id)].outcome, id in r.skills.ids);
      skills := after;
      forall q
        ensures Read(q) == old(Read(q)) + IdWeight(q, r, id, true)
      {
        match q
        case SkillDenominator(m) => LabelledCounts(r, id, m);
        case SkillNumerator(m) => LabelledCounts(r, id, m);
        case SkillOpportunities(o) => LabelledOpportunity(r, id, o);
        case _ => OtherNumbers(q, r, id);
      }
    }

    // One id the parser returned: precision, and its complement.
    method MeetReturned(r: Evaluated, id: string)
      requires r.skills.SkillsReturned? && SkillPath(id) in r.labels
      modifies `skills
      ensures forall q :: Read(q) == old(Read(q)) + IdWeight(q, r, id, false)
    {
      var supported := r.labels[SkillPath(id)].outcome.PresentSupported?;
      skills := skills.(precision := skills.precision.Add(supported));
      skills := skills.(outside := skills.outside.Add(!supported));
    }

    method MeetAllLabelled(r: Evaluated)
      requires r.skills.SkillsReturned? && forall id :: id in LabelledIds(r) ==> SkillPath(id) in r.labels
      modifies `skills
      ensures forall q :: Read(q) == old(Read(q)) + IdWeights(q, r, LabelledIds(r), true)
    {
      hide Read, IdWeight, IdWeights;
      var ids := LabelledIds(r);
      var rest := ids;
      NoIds(r, ids - rest, true);
      while rest != {}
        invariant rest <= ids && forall q :: Read(q) == old(Read(q)) + IdWeights(q, r, ids - rest, true)
        decreases |rest|
      {
        var id :| id in rest;
        OneMoreId(r, ids - rest, id, true);
        assert ids - (rest - {id}) == ids - rest + {id};
        MeetLabelled(r, id);
        rest := rest - {id};
      }
      assert ids - rest == ids;
    }

    method MeetAllReturned(r: Evaluated)
      requires r.skills.SkillsReturned? && forall id :: id in r.skills.ids ==> SkillPath(id) in r.labels
      modifies `skills
      ensures forall q :: Read(q) == old(Read(q)) + IdWeights(q, r, r.skills.ids, false)
    {
      hide Read, IdWeight, IdWeights;
      var ids := r.skills.ids;
      var rest := ids;
      NoIds(r, ids - rest, false);
      while rest != {}
        invariant rest <= ids && forall q :: Read(q) == old(Read(q)) + IdWeights(q, r, ids - rest, false)
        decreases |rest|
      {
        var id :| id in rest;
        OneMoreId(r, ids - rest, id, false);
        assert ids - (rest - {id}) == ids - rest + {id};
        MeetReturned(r, id);
        rest := rest - {id};
      }
      assert ids - rest == ids;
    }

    method EvaluateSkills(r: Evaluated, ghost all: set<string>)
      requires Complete(r, all)
      modifies `skills, `runtimeFailure
      ensures forall q :: Read(q) == old(Read(q)) + ParserWeight(q, r, "skills")
    {
      hide Read, IdWeight, IdWeights, Parsers, IsParser, CaseWeight, CaseOf, LabelPaths;
      AddRuntime("skills", r.skills.SkillsRaised?);
      if r.skills.SkillsReturned? {
        LabelledAre(r, all);
        MeetAllLabelled(r);
        MeetAllReturned(r);
      }
      forall q
        ensures Read(q) == old(Read(q)) + ParserWeight(q, r, "skills")
      {
        SkillsWeight(q, r);
      }
    }

    method EvaluateRecord(r: Evaluated, ghost all: set<string>)
      requires Complete(r, all)
      modifies this
      ensures forall q :: Read(q) == old(Read(q)) + Weight(q, r)
    {
      hide Read, Weight, Complete, Listed;
      var parsers := Parsers();
      ParsersAreListed();
      for i := 0 to |parsers|
        invariant forall q :: Read(q) == old(Read(q)) + WeightOf(q, r, Names(parsers[..i]))
      {
        NamesGrow(parsers, i);
        EvaluateParser(r, parsers[i], all);
      }
      assert parsers[..|parsers|] == parsers;
      EvaluateSkills(r, all);
      forall q
        ensures Read(q) == old(Read(q)) + Weight(q, r)
      {
        EveryNumberHasAParser(q, r);
      }
    }

    /** Every number of the evaluation is the sum of what the records each add to it. */
    method EvaluateRecords(records: seq<Evaluated>, ghost all: set<string>)
      requires forall i :: 0 <= i < |records| ==> Complete(records[i], all)
      requires forall q :: Read(q) == 0
      modifies this
      ensures forall q :: Read(q) == Total(q, records)
    {
      hide Read, Weight, Complete;
      for i := 0 to |records|
        invariant forall q :: Read(q) == Total(q, records[..i])
      {
        assert records[..i + 1][..i] == records[..i];
        EvaluateRecord(records[i], all);
      }
      assert records[..|records|] == records;
    }
  }

  function Names(parsers: seq<Parser>): set<string> {
    set p | p in parsers :: p.name
  }

  // What the parsers of these names add.
  ghost function WeightOf(q: Query, r: Evaluated, names: set<string>): nat {
    if QueryParser(q) in names then Weight(q, r) else 0
  }

  lemma ParsersAreListed()
    ensures forall i :: 0 <= i < |Parsers()| ==> Listed(Parsers()[i])
    ensures forall i, j :: 0 <= i < j < |Parsers()| ==> Parsers()[i].name != Parsers()[j].name
  {
    hide Listed;
    forall i | 0 <= i < |Parsers()|
      ensures Listed(Parsers()[i])
    {
      if i < 3 {
        ScalarsListed(i);
      } else {
        CompositesListed(i);
      }
    }
  }

  lemma ScalarsListed(i: nat)
    requires i < 3
    ensures Listed(Parsers()[i])
  {
    var p := Parsers()[i];
    forall path
      ensures path in p.paths <==> path in ScoredPaths() && ParserOf(path) == p.name
    {
      NotComponent(path);
    }
  }

  lemma CompositesListed(i: nat)
    requires 3 <= i < 6
    ensures Listed(Parsers()[i])
  {
    var p := Parsers()[i];
    CompositeShape(i);
    hide Components, Parsers;
    forall path
      ensures path in p.paths <==> path in ScoredPaths() && ParserOf(path) == p.name
    {
      CompositeHas(i, path);
      ComponentsOf(path);
    }
  }

  lemma CompositeShape(i: nat)
    requires 3 <= i < 6
    ensures var p := Parsers()[i];
            && p.name in {"experience", "salary", "location"}
            && forall k, j :: 0 <= k < j < |p.paths| ==> p.paths[k] != p.paths[j]
  {
  }

  lemma CompositeHas(i: nat, path: Path)
    requires 3 <= i < 6
    ensures path in Parsers()[i].paths <==>
      path.ComponentPath? && path.parser == Parsers()[i].name && match path.parser
        case "experience" => path.component in {"minimum", "maximum"}
        case "salary" => path.component in {"minimum", "maximum", "currency", "period"}
        case _ => path.component in {"city", "state", "country", "postal_code"}
  {
  }

  // The components, parser by parser.
  lemma ComponentsOf(path: Path)
    ensures path in Components() <==>
      path.ComponentPath? && match path.parser
        case "experience" => path.component in {"minimum", "maximum"}
        case "salary" => path.component in {"minimum", "maximum", "currency", "period"}
        case "location" => path.component in {"city", "state", "country", "postal_code"}
        case _ => false
  {
  }

  lemma NamesAre()
    ensures Names(Parsers()) == {"remote_type", "employment_type", "seniority", "experience", "salary", "location"}
  {
    var ps := Parsers();
    assert ps[0] in ps && ps[1] in ps && ps[2] in ps && ps[3] in ps && ps[4] in ps && ps[5] in ps;
  }

  lemma NamesGrow(parsers: seq<Parser>, i: nat)
    requires i < |parsers| && forall j :: 0 <= j < i ==> parsers[j].name != parsers[i].name
    ensures Names(parsers[..i + 1]) == Names(parsers[..i]) + {parsers[i].name} && parsers[i].name !in Names(parsers[..i])
    ensures parsers[i] in parsers
  {
    assert parsers[..i + 1] == parsers[..i] + [parsers[i]];
  }

  lemma EveryNumberHasAParser(q: Query, r: Evaluated)
    ensures Weight(q, r) == WeightOf(q, r, Names(Parsers())) + ParserWeight(q, r, "skills")
  {
    hide CaseWeight, ScoredPaths, Parsers, IdWeights, Names;
    NamesAre();
    if AboutComponent(q) {
      ScoredHasParser(q.path);
    } else if q.Invocations? || q.Failures? {
      ParserNames(q.parser);
    }
  }

  lemma ScoredHasParser(path: Path)
    ensures path in ScoredPaths() ==> ParserOf(path) in {"remote_type", "employment_type", "seniority", "experience", "salary", "location"}
  {
  }

  lemma ParserNames(name: string)
    ensures IsParser(name) <==> name == "skills" || name in Names(Parsers())
  {
    hide Parsers;
  }

  // What a labelled id adds, metric by metric.
  lemma LabelledCounts(r: Evaluated, id: string, m: SkillMetric)
    requires r.skills.SkillsReturned? && SkillPath(id) in r.labels
    ensures var counted := !OverReturned(m) && r.labels[SkillPath(id)].outcome == OutcomeOf(m);
            && IdWeight(SkillDenominator(m), r, id, true) == Bit(counted)
            && IdWeight(SkillNumerator(m), r, id, true) == Bit(counted && id in r.skills.ids)
  {
  }

  lemma LabelledOpportunity(r: Evaluated, id: string, o: Outcome)
    requires r.skills.SkillsReturned? && SkillPath(id) in r.labels
    ensures IdWeight(SkillOpportunities(o), r, id, true) == Bit(r.labels[SkillPath(id)].outcome == o)
  {
  }

  lemma OtherNumbers(q: Query, r: Evaluated, id: string)
    requires r.skills.SkillsReturned? && !q.SkillDenominator? && !q.SkillNumerator? && !q.SkillOpportunities?
    ensures IdWeight(q, r, id, true) == 0
  {
  }

  lemma LabelledAre(r: Evaluated, all: set<string>)
    requires Complete(r, all)
    ensures LabelledIds(r) == all && forall id :: id in all ==> SkillPath(id) in r.labels
  {
    hide Parsers, Components;
    forall id | id in all
      ensures SkillPath(id) in r.labels && id in LabelledIds(r)
    {
      assert SkillPath(id) in LabelPaths(all);
    }
    forall id | id in LabelledIds(r)
      ensures id in all
    {
      var path :| path in r.labels && path.SkillPath? && path.id == id;
      NotComponent(path);
    }
  }

  lemma NotComponent(path: Path)
    ensures path in Components() ==> path.ComponentPath?
  {
  }

  lemma NoIds(r: Evaluated, ids: set<string>, labelled: bool)
    requires r.skills.SkillsReturned?
    ensures ids == {} ==> forall q :: IdWeights(q, r, ids, labelled) == 0
  {
    hide IdWeight;
    forall q
      ensures ids == {} ==> IdWeights(q, r, ids, labelled) == 0
    {
      var weights := map id | id in ids :: IdWeight(q, r, id, labelled);
      assert weights.Keys == ids;
    }
  }

  lemma OneMoreId(r: Evaluated, ids: set<string>, id: string, labelled: bool)
    requires r.skills.SkillsReturned? && id !in ids
    ensures forall q :: IdWeights(q, r, ids + {id}, labelled) == IdWeights(q, r, ids, labelled) + IdWeight(q, r, id, labelled)
  {
    hide IdWeight, Sum;
    forall q
      ensures IdWeights(q, r, ids + {id}, labelled) == IdWeights(q, r, ids, labelled) + IdWeight(q, r, id, labelled)
    {
      var before := map i | i in ids :: IdWeight(q, r, i, labelled);
      assert (map i | i in ids + {id} :: IdWeight(q, r, i, labelled)) == before[id := IdWeight(q, r, id, labelled)];
      SumUpdate(before, id, IdWeight(q, r, id, labelled));
    }
  }

  // What invoking the skills parser adds: the invocation and, unless it raised, both loops.
  lemma SkillsWeight(q: Query, r: Evaluated)
    ensures ParserWeight(q, r, "skills") == RuntimeWeight(q, "skills", r.skills.SkillsRaised?)
      + (if r.skills.SkillsRaised? then 0 else IdWeights(q, r, LabelledIds(r), true) + IdWeights(q, r, r.skills.ids, false))
  {
    hide Sum, CaseWeight;
    if r.skills.SkillsReturned? && (AboutComponent(q) || q.Invocations? || q.Failures?) {
      NothingOutsideSkills(q, r, LabelledIds(r), true);
      NothingOutsideSkills(q, r, r.skills.ids, false);
    }
    if AboutComponent(q) && ParserOf(q.path) == "skills" {
      SkillsIsNotScored(q.path);
    }
  }

  lemma SkillsIsNotScored(path: Path)
    requires ParserOf(path) == "skills"
    ensures path !in ScoredPaths()
  {
  }

  lemma NothingOutsideSkills(q: Query, r: Evaluated, ids: set<string>, labelled: bool)
    requires r.skills.SkillsReturned? && (AboutComponent(q) || q.Invocations? || q.Failures?)
    ensures IdWeights(q, r, ids, labelled) == 0
  {
    SumZero(map id | id in ids :: IdWeight(q, r, id, labelled));
  }

  lemma InParsers(p: Parser)
    requires p in Parsers()
    ensures IsParser(p.name)
  {
    hide Parsers;
    var i :| 0 <= i < |Parsers()| && Parsers()[i] == p;
  }

  lemma CaseIsThere(r: Evaluated, p: Parser, path: Path, all: set<string>)
    requires Complete(r, all) && p in Parsers() && Listed(p) && path in p.paths && r.runs[p.name].Returned?
    ensures CaseOf(r, path).Some?
  {
    hide Parsers;
  }

  lemma RaisedScoresNothing(r: Evaluated, p: Parser)
    requires Listed(p) && p.name in r.runs && r.runs[p.name].Raised?
    ensures forall q :: AboutComponent(q) && q.path in p.paths ==> Weight(q, r) == 0
  {
    hide CaseWeight, IsParser, ScoredPaths;
  }
}
