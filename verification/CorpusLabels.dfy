/** Labels and annotations of the evaluation corpus, and the evaluator's rules for them. */
module CorpusLabels {
  import opened Options

  datatype Outcome = PresentSupported | Absent | PresentUnsupportedForm | Ambiguous
  datatype Provenance = ExplicitSource | StructuredMetadata | ParsedDescription | Derived | Inferred | Unavailable
  datatype Value = Text(text: string) | Number(number: int)

  // Where a label lives.
  datatype Path = ScalarPath(parser: string) | ComponentPath(parser: string, component: string) | SkillPath(id: string)

  datatype Label =
    | ScoredLabel(outcome: Outcome, value: Option<Value>, provenance: Provenance)
    | SkillLabel(outcome: Outcome)

  // A timestamp string: either it denotes an instant with an offset, or the loaders refuse it.
  datatype Timestamp = Aware(instant: int) | Refused

  // The per-field value vocabulary, one table shared by builder and evaluator.
  type Vocabulary = (Path, Value) -> bool

  const SCALARS: set<string> := {"remote_type", "employment_type", "seniority"}

  function Components(): set<Path> {
    {ComponentPath("experience", "minimum"), ComponentPath("experience", "maximum"),
     ComponentPath("salary", "minimum"), ComponentPath("salary", "maximum"),
     ComponentPath("salary", "currency"), ComponentPath("salary", "period"),
     ComponentPath("location", "city"), ComponentPath("location", "state"),
     ComponentPath("location", "country"), ComponentPath("location", "postal_code")}
  }

  /** Every place a record must be labelled, for the given skills. */
  function LabelPaths(skills: set<string>): set<Path> {
    (set s | s in SCALARS :: ScalarPath(s)) + Components() + (set id | id in skills :: SkillPath(id))
  }

  predicate KindFits(path: Path, given: Label) {
    path.SkillPath? <==> given.SkillLabel?
  }

  // The rules of a scored label: the value is in the field's vocabulary, absent exactly when the
  // provenance is unavailable, and present exactly when the outcome is supported.
  predicate Scored(vocabulary: Vocabulary, path: Path, given: Label) {
    given.ScoredLabel? ==>
      && (given.value.Some? ==> vocabulary(path, given.value.value))
      && (given.value.None? <==> given.provenance.Unavailable?)
      && (given.outcome.PresentSupported? <==> given.value.Some?)
  }

  // A label with the metadata every annotation carries.
  datatype Signed = Signed(given: Label, role: string, rubric: string, note: string, frozen: bool, frozenAt: Timestamp)

  datatype Adjudication = Adjudication(final: Label, author: string, at: Timestamp)

  datatype Disagreement = Disagreement(second: Signed, adjudication: Adjudication)

  datatype Annotation = Annotation(primary: Signed, disagreement: Option<Disagreement>)

  predicate ShapeValid(vocabulary: Vocabulary, path: Path, s: Signed) {
    && KindFits(path, s.given) && Scored(vocabulary, path, s.given)
    && s.frozen && s.frozenAt.Aware? && s.role != "" && s.rubric != "" && s.note != ""
  }

  /** The evaluator accepts an annotation. */
  predicate AnnotationValid(vocabulary: Vocabulary, path: Path, a: Annotation) {
    && ShapeValid(vocabulary, path, a.primary)
    && (a.disagreement.Some? ==>
          var d := a.disagreement.value;
          && ShapeValid(vocabulary, path, d.second)
          && KindFits(path, d.adjudication.final) && Scored(vocabulary, path, d.adjudication.final)
          && d.adjudication.author != "" && d.adjudication.at.Aware?
          && a.primary.given == d.adjudication.final
          && a.primary.given != d.second.given)
  }

  datatype Split = Dev | Holdout

  datatype Record = Record(id: string, employer: string, split: Split, annotations: map<Path, Annotation>)

  predicate AnnotationsValid(vocabulary: Vocabulary, skills: set<string>, r: Record) {
    r.annotations.Keys == LabelPaths(skills)
    && forall path :: path in r.annotations ==> AnnotationValid(vocabulary, path, r.annotations[path])
  }

  ghost function EmployersOf(records: seq<Record>, split: Split): set<string> {
    set r | r in records && r.split == split :: r.employer
  }

  /** Both splits are there, and no employer is in both. */
  ghost predicate PartitionValid(records: seq<Record>) {
    EmployersOf(records, Dev) != {} && EmployersOf(records, Holdout) != {}
    && EmployersOf(records, Dev) !! EmployersOf(records, Holdout)
  }
}
