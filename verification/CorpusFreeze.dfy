/** Freezing the corpus: two independent annotation passes and an adjudication are merged into records
    the evaluator must accept. */
module CorpusFreeze {
  import opened Options
  import opened Ordering
  import opened CorpusLabels

  type RecordId = string
  type Key = (RecordId, Path)

  datatype Pass = Pass(frozenAt: Timestamp, records: map<RecordId, map<Path, Label>>)
  datatype AuditEntry = AuditEntry(author: string, at: Timestamp, overturned: bool)
  datatype Audit = Audit(disagreements: map<Key, Adjudication>, audited: map<Key, AuditEntry>)

  // A salvaged posting; its provenance block names an employer of its own.
  datatype Candidate = Candidate(id: RecordId, employer: string, provenanceEmployer: string)

  const HUMAN := "user"

  // ---------- Validated inputs ----------

  // The rules of a raw label, and of an adjudicated final one.
  predicate RawValid(vocabulary: Vocabulary, path: Path, given: Label) {
    KindFits(path, given)
    && (given.ScoredLabel? ==>
          && (given.value.Some? <==> given.outcome.PresentSupported?)
          && (given.outcome.PresentSupported? ==> given.provenance.ParsedDescription? || given.provenance.Inferred?)
          && (!given.outcome.PresentSupported? ==> given.provenance.Unavailable?)
          && (given.value.Some? ==> vocabulary(path, given.value.value)))
  }

  predicate PassValid(vocabulary: Vocabulary, ids: set<RecordId>, skills: set<string>, pass: Pass) {
    && pass.frozenAt.Aware? && pass.records.Keys == ids
    && forall id :: id in ids ==>
         pass.records[id].Keys == LabelPaths(skills)
         && forall path :: path in pass.records[id] ==> RawValid(vocabulary, path, pass.records[id][path])
  }

  predicate FinalValid(vocabulary: Vocabulary, path: Path, a: Adjudication) {
    a.author == HUMAN && a.at.Aware? && RawValid(vocabulary, path, a.final)
  }

  // Both passes, over the same records and paths.
  datatype Passes = Passes(claude: Pass, sol: Pass)
  {
    predicate Valid(vocabulary: Vocabulary, ids: set<RecordId>, skills: set<string>) {
      PassValid(vocabulary, ids, skills, claude) && PassValid(vocabulary, ids, skills, sol)
    }

    predicate Labels(key: Key) {
      key.0 in claude.records && key.0 in sol.records && key.1 in claude.records[key.0] && key.1 in sol.records[key.0]
    }

    function Claude(key: Key): Label
      requires Labels(key)
    {
      claude.records[key.0][key.1]
    }

    function Sol(key: Key): Label
      requires Labels(key)
    {
      sol.records[key.0][key.1]
    }

    predicate Agree(key: Key) {
      Labels(key) && Claude(key) == Sol(key)
    }
  }

  function AllKeys(ids: set<RecordId>, skills: set<string>): set<Key> {
    set id, path | id in ids && path in LabelPaths(skills) :: (id, path)
  }

  // ---------- Which agreements must be audited ----------

  // Agreements of the same path, outcome and employer.
  predicate SameStratum(passes: Passes, employers: map<RecordId, string>, a: Key, b: Key) {
    && passes.Agree(a) && passes.Agree(b) && a.0 in employers && b.0 in employers
    && a.1 == b.1 && employers[a.0] == employers[b.0] && passes.Claude(a).outcome == passes.Claude(b).outcome
  }

  /** Every supported agreement, and of every other stratum the agreement of its least record id. */
  ghost predicate MustAudit(passes: Passes, employers: map<RecordId, string>, keys: set<Key>, key: Key) {
    && key in keys && passes.Agree(key) && key.0 in employers
    && (passes.Claude(key).outcome.PresentSupported?
        || forall other :: other in keys && SameStratum(passes, employers, key, other) ==> AtMost(key.0, other.0))
  }

  datatype Stratum = Stratum(path: Path, outcome: Outcome, employer: string)

  function StratumOf(passes: Passes, employers: map<RecordId, string>, key: Key): Stratum
    requires passes.Agree(key) && key.0 in employers
  {
    Stratum(key.1, passes.Claude(key).outcome, employers[key.0])
  }

  // The strata filled in so far hold exactly the unsupported agreements seen.
  ghost predicate Stratified(passes: Passes, employers: map<RecordId, string>, agreements: set<Key>,
                             strata: map<Stratum, set<RecordId>>) {
    && (forall s, id :: s in strata && id in strata[s] ==>
          (id, s.path) in agreements && StratumIs(passes, employers, (id, s.path), s))
    && (forall key :: key in agreements ==>
          (forall s :: StratumIs(passes, employers, key, s) ==> s in strata && key.0 in strata[s]))
    && (forall s :: s in strata ==> strata[s] != {})
  }

  predicate StratumIs(passes: Passes, employers: map<RecordId, string>, key: Key, s: Stratum) {
    && passes.Agree(key) && key.0 in employers && StratumOf(passes, employers, key) == s
    && !s.outcome.PresentSupported?
  }

  // What the scan has filled in after dealing with some of the keys.
  ghost predicate Scanned(passes: Passes, employers: map<RecordId, string>, done: set<Key>, agreements: set<Key>,
                          required: set<Key>, strata: map<Stratum, set<RecordId>>) {
    && (forall key :: key in done ==> key.0 in employers)
    && (forall key :: key in agreements <==> key in done && passes.Agree(key))
    && (forall key :: key in required <==> key in agreements && passes.Claude(key).outcome.PresentSupported?)
    && Stratified(passes, employers, agreements, strata)
  }

  lemma StratifyOne(passes: Passes, employers: map<RecordId, string>, agreements: set<Key>,
                    strata: map<Stratum, set<RecordId>>, key: Key)
    requires Stratified(passes, employers, agreements, strata) && passes.Agree(key) && key.0 in employers
    ensures var s := StratumOf(passes, employers, key);
            Stratified(passes, employers, agreements + {key},
              if passes.Claude(key).outcome.PresentSupported? then strata
              else strata[s := (if s in strata then strata[s] else {}) + {key.0}])
  {
    assert (key.0, StratumOf(passes, employers, key).path) == key;
  }

  method ScanAgreements(passes: Passes, employers: map<RecordId, string>, keys: set<Key>)
    returns (agreements: set<Key>, required: set<Key>, strata: map<Stratum, set<RecordId>>)
    requires forall key :: key in keys ==> passes.Labels(key) && key.0 in employers
    ensures Scanned(passes, employers, keys, agreements, required, strata)
  {
    hide Scanned, StratumOf, Stratified;
    agreements, required, strata := {}, {}, map[];
    NothingScanned(passes, employers);
    var rest := keys;
    assert keys - rest == {};
    while rest != {}
      invariant rest <= keys && Scanned(passes, employers, keys - rest, agreements, required, strata)
      decreases |rest|
    {
      var key :| key in rest;
      assert keys - (rest - {key}) == (keys - rest) + {key};
      ScanOne(passes, employers, keys - rest, agreements, required, strata, key);
      rest := rest - {key};
      if passes.Claude(key) == passes.Sol(key) {
        agreements := agreements + {key};
        if passes.Claude(key).outcome.PresentSupported? {
          required := required + {key};
        } else {
          var s := StratumOf(passes, employers, key);
          strata := strata[s := (if s in strata then strata[s] else {}) + {key.0}];
        }
      }
    }
    assert keys - rest == keys;
  }

  lemma NothingScanned(passes: Passes, employers: map<RecordId, string>)
    ensures Scanned(passes, employers, {}, {}, {}, map[])
  {
  }

  lemma ScanOne(passes: Passes, employers: map<RecordId, string>, done: set<Key>, agreements: set<Key>,
                required: set<Key>, strata: map<Stratum, set<RecordId>>, key: Key)
    requires Scanned(passes, employers, done, agreements, required, strata)
    requires passes.Labels(key) && key.0 in employers
    ensures !passes.Agree(key) ==> Scanned(passes, employers, done + {key}, agreements, required, strata)
    ensures passes.Agree(key) ==>
      var s, supported := StratumOf(passes, employers, key), passes.Claude(key).outcome.PresentSupported?;
      Scanned(passes, employers, done + {key}, agreements + {key},
              if supported then required + {key} else required,
              if supported then strata else strata[s := (if s in strata then strata[s] else {}) + {key.0}])
  {
    hide Stratified, StratumOf;
    if passes.Agree(key) {
      StratifyOne(passes, employers, agreements, strata, key);
    }
  }

  /** The audit rule, frozen before any label exists. */
  method ComputeRequiredAuditKeys(passes: Passes, employers: map<RecordId, string>, keys: set<Key>)
    returns (required: set<Key>, agreements: set<Key>)
    requires forall key :: key in keys ==> passes.Labels(key) && key.0 in employers
    ensures forall key :: key in agreements <==> key in keys && passes.Agree(key)
    ensures forall key :: key in required <==> MustAudit(passes, employers, keys, key)
  {
    hide Stratified, MustAudit, Passes.Agree, Passes.Claude, Passes.Sol, StratumOf, IsLeast;
    var supported, strata;
    agreements, supported, strata := ScanAgreements(passes, employers, keys);
    StrataFilled(passes, employers, agreements, strata);
    var least := LeastOfEach(strata);
    required := supported + least;
    forall key
      ensures key in required <==> MustAudit(passes, employers, keys, key)
    {
      RequiredIsMustAudit(passes, employers, keys, agreements, supported, strata, key);
    }
  }

  lemma StrataFilled(passes: Passes, employers: map<RecordId, string>, agreements: set<Key>, strata: map<Stratum, set<RecordId>>)
    requires Stratified(passes, employers, agreements, strata)
    ensures forall s :: s in strata ==> strata[s] != {}
  {
  }

  // One key per stratum: that of its least record id.
  method LeastOfEach(strata: map<Stratum, set<RecordId>>) returns (least: set<Key>)
    requires forall s :: s in strata ==> strata[s] != {}
    ensures forall key :: key in least <==> LeastOfSome(strata, strata.Keys, key)
  {
    hide IsLeast;
    least := {};
    var rest := strata.Keys;
    while rest != {}
      invariant rest <= strata.Keys && forall key :: key in least <==> LeastOfSome(strata, strata.Keys - rest, key)
      decreases |rest|
    {
      var s :| s in rest;
      var smallest := Least(strata[s]);
      LeastIsUnique(strata[s], smallest);
      least := least + {(smallest, s.path)};
      rest := rest - {s};
    }
  }

  ghost predicate LeastOfSome(strata: map<Stratum, set<RecordId>>, among: set<Stratum>, key: Key) {
    exists s :: s in among && s in strata && key.1 == s.path && IsLeast(key.0, strata[s])
  }

  lemma RequiredIsMustAudit(passes: Passes, employers: map<RecordId, string>, keys: set<Key>, agreements: set<Key>,
                            supported: set<Key>, strata: map<Stratum, set<RecordId>>, key: Key)
    requires Scanned(passes, employers, keys, agreements, supported, strata)
    ensures key in supported || LeastOfSome(strata, strata.Keys, key) <==> MustAudit(passes, employers, keys, key)
  {
    hide AtMost;
    if LeastOfSome(strata, strata.Keys, key) {
      var s :| s in strata && key.1 == s.path && IsLeast(key.0, strata[s]);
      assert (key.0, s.path) == key && key in agreements && StratumIs(passes, employers, key, s);
    }
    if key in agreements && !passes.Claude(key).outcome.PresentSupported? {
      LeastOfStratum(passes, employers, keys, agreements, supported, strata, key);
    }
  }

  lemma LeastIsUnique(all: set<string>, x: string)
    requires IsLeast(x, all)
    ensures forall y :: IsLeast(y, all) ==> y == x
  {
    forall y | IsLeast(y, all)
      ensures y == x
    {
      AtMostTotal(x, y);
    }
  }

  lemma LeastOfStratum(passes: Passes, employers: map<RecordId, string>, keys: set<Key>, agreements: set<Key>,
                       supported: set<Key>, strata: map<Stratum, set<RecordId>>, key: Key)
    requires Scanned(passes, employers, keys, agreements, supported, strata)
    requires key in agreements && !passes.Claude(key).outcome.PresentSupported?
    ensures var s := StratumOf(passes, employers, key);
            s in strata && (IsLeast(key.0, strata[s]) <==> MustAudit(passes, employers, keys, key))
  {
    var s := StratumOf(passes, employers, key);
    assert (key.0, s.path) == key && StratumIs(passes, employers, key, s);
    forall other | other in keys && SameStratum(passes, employers, key, other)
      ensures other.0 in strata[s]
    {
      assert other in agreements && StratumIs(passes, employers, other, s);
    }
    forall id | id in strata[s]
      ensures (id, s.path) in keys && SameStratum(passes, employers, key, (id, s.path))
    {
      assert (id, s.path) in agreements;
    }
  }

  /** Every stratum is audited at one agreement of its own, unless supported agreements are, which all are: at
      the one whose record id comes no later than any other. */
  lemma EveryStratumIsAudited(passes: Passes, employers: map<RecordId, string>, keys: set<Key>, key: Key) returns (r: Key)
    requires key in keys && passes.Agree(key) && key.0 in employers
    ensures MustAudit(passes, employers, keys, r) && SameStratum(passes, employers, key, r)
    ensures passes.Claude(key).outcome.PresentSupported? ==> r == key
    ensures !passes.Claude(key).outcome.PresentSupported? ==>
      && AtMost(r.0, key.0)
      && forall other :: MustAudit(passes, employers, keys, other) && SameStratum(passes, employers, key, other) ==> other == r
  {
    if passes.Claude(key).outcome.PresentSupported? {
      r := key;
    } else {
      var ids := set other | other in keys && SameStratum(passes, employers, key, other) :: other.0;
      assert key.0 in ids;
      var least := LeastOne(ids);
      r :| r in keys && SameStratum(passes, employers, key, r) && r.0 == least;
      hide AtMost;
      forall other | MustAudit(passes, employers, keys, other) && SameStratum(passes, employers, key, other)
        ensures other == r
      {
        assert other.0 in ids && SameStratum(passes, employers, other, r);
        AtMostTotal(other.0, r.0);
      }
    }
  }

  // ---------- The adjudication artifact ----------

  /** Every genuine disagreement is adjudicated, an adjudicated agreement really changes, every required
      audit is there, and an audit is overturned exactly when its agreement is adjudicated. */
  ghost predicate AuditAccepted(vocabulary: Vocabulary, passes: Passes, employers: map<RecordId, string>, keys: set<Key>, audit: Audit) {
    && (forall key :: key in keys && !passes.Agree(key) ==> key in audit.disagreements)
    && (forall key :: key in audit.disagreements ==>
          && key in keys && FinalValid(vocabulary, key.1, audit.disagreements[key])
          && (passes.Agree(key) ==> audit.disagreements[key].final != passes.Claude(key)))
    && (forall key :: MustAudit(passes, employers, keys, key) ==> key in audit.audited)
    && (forall key :: key in audit.audited ==>
          && key in keys && passes.Agree(key)
          && audit.audited[key].author == HUMAN && audit.audited[key].at.Aware?
          && (audit.audited[key].overturned <==> key in audit.disagreements))
  }

  method CheckAudit(vocabulary: Vocabulary, passes: Passes, employers: map<RecordId, string>, keys: set<Key>, audit: Audit)
    returns (ok: bool)
    requires forall key :: key in keys ==> passes.Labels(key) && key.0 in employers
    ensures ok <==> AuditAccepted(vocabulary, passes, employers, keys, audit)
  {
    hide MustAudit, FinalValid;
    var required, agreements := ComputeRequiredAuditKeys(passes, employers, keys);
    if !(audit.disagreements.Keys <= keys) || !(keys - agreements <= audit.disagreements.Keys) {
      return false;
    }
    var disagreements := audit.disagreements.Keys;
    if exists key :: key in disagreements
         && !(FinalValid(vocabulary, key.1, audit.disagreements[key])
              && (key in agreements ==> audit.disagreements[key].final != passes.Claude(key))) {
      return false;
    }
    if !(audit.audited.Keys <= agreements) || !(required <= audit.audited.Keys) {
      return false;
    }
    var audited := audit.audited.Keys;
    ok := forall key :: key in audited ==>
      && audit.audited[key].author == HUMAN && audit.audited[key].at.Aware?
      && (audit.audited[key].overturned <==> key in audit.disagreements);
  }

  // ---------- Merging ----------

  function LaterOf(a: Timestamp, b: Timestamp): (r: Timestamp)
    ensures r == a || r == b
    ensures a.Aware? && b.Aware? ==> r.Aware? && a.instant <= r.instant && b.instant <= r.instant
  {
    if a.Aware? && b.Aware? && a.instant < b.instant then b else a
  }

  function MergeAgreed(shared: Label, rubric: string, frozenAt: Timestamp): Annotation {
    Annotation(
      Signed(shared, "claude+sol:agreed", rubric, "phase3_realistic_corpus freeze: independent two-pass agreement", true, frozenAt),
      None)
  }

  // The second annotation is whichever raw label differs from the final one.
  function MergeAdjudicated(claude: Label, sol: Label, a: Adjudication, rubric: string,
                            claudeAt: Timestamp, solAt: Timestamp): Annotation {
    var second :=
      if a.final == sol then
        Signed(claude, "claude", rubric, "phase3_realistic_corpus freeze: claude pass (raw)", true, claudeAt)
      else
        Signed(sol, "sol", rubric, "phase3_realistic_corpus freeze: sol pass (raw)", true, solAt);
    Annotation(
      Signed(a.final, "adjudicated:user", rubric, "phase3_realistic_corpus freeze: user-adjudicated disagreement", true, a.at),
      Some(Disagreement(second, a)))
  }

  // The builder's rules for a raw label are at least as strict as the evaluator's.
  lemma RawIsScored(vocabulary: Vocabulary, path: Path, given: Label)
    requires RawValid(vocabulary, path, given)
    ensures KindFits(path, given) && Scored(vocabulary, path, given)
  {
  }

  // What the merge loop writes for one key.
  function Merged(passes: Passes, audit: Audit, rubric: string, key: Key): Annotation
    requires passes.Labels(key)
  {
    if key in audit.disagreements then
      MergeAdjudicated(passes.Claude(key), passes.Sol(key), audit.disagreements[key], rubric,
                       passes.claude.frozenAt, passes.sol.frozenAt)
    else MergeAgreed(passes.Claude(key), rubric, LaterOf(passes.claude.frozenAt, passes.sol.frozenAt))
  }

  lemma AgreedIsValid(vocabulary: Vocabulary, path: Path, shared: Label, rubric: string, frozenAt: Timestamp)
    requires RawValid(vocabulary, path, shared) && frozenAt.Aware? && rubric != ""
    ensures AnnotationValid(vocabulary, path, MergeAgreed(shared, rubric, frozenAt))
  {
    hide RawValid;
    RawIsScored(vocabulary, path, shared);
  }

  lemma AdjudicatedIsValid(vocabulary: Vocabulary, path: Path, claude: Label, sol: Label, a: Adjudication, rubric: string,
                           claudeAt: Timestamp, solAt: Timestamp)
    requires RawValid(vocabulary, path, claude) && RawValid(vocabulary, path, sol) && FinalValid(vocabulary, path, a)
    requires claudeAt.Aware? && solAt.Aware? && rubric != "" && (claude == sol ==> a.final != claude)
    ensures var merged := MergeAdjudicated(claude, sol, a, rubric, claudeAt, solAt);
            && AnnotationValid(vocabulary, path, merged) && merged.primary.given == a.final && merged.disagreement.Some?
            && merged.disagreement.value.second.given != a.final
            && merged.disagreement.value.second.given == (if a.final == sol then claude else sol)
  {
    hide RawValid, Scored, KindFits;
    RawIsScored(vocabulary, path, claude);
    RawIsScored(vocabulary, path, sol);
    RawIsScored(vocabulary, path, a.final);
  }

  lemma PassFacts(vocabulary: Vocabulary, ids: set<RecordId>, skills: set<string>, passes: Passes, id: RecordId, path: Path)
    requires passes.Valid(vocabulary, ids, skills) && id in ids && path in LabelPaths(skills)
    ensures passes.Labels((id, path)) && passes.claude.frozenAt.Aware? && passes.sol.frozenAt.Aware?
    ensures RawValid(vocabulary, path, passes.Claude((id, path))) && RawValid(vocabulary, path, passes.Sol((id, path)))
  {
    hide RawValid, LabelPaths;
  }

  lemma AdjudicatedIsSigned(passes: Passes, final: Adjudication, rubric: string, key: Key)
    requires passes.Labels(key) && (passes.Agree(key) ==> final.final != passes.Claude(key))
    ensures var merged := MergeAdjudicated(passes.Claude(key), passes.Sol(key), final, rubric, passes.claude.frozenAt, passes.sol.frozenAt);
            AdjudicatedRight(passes, final, key, merged) && merged.primary.rubric == rubric
  {
  }

  /** Whatever validated evidence is merged satisfies the evaluator: an adjudicated label is the user's
      and really differs from a second annotation that one of the passes gave, and a label without
      adjudication is what both passes gave. */
  lemma MergedIsValid(vocabulary: Vocabulary, ids: set<RecordId>, skills: set<string>, passes: Passes,
                      employers: map<RecordId, string>, audit: Audit, rubric: string, id: RecordId, path: Path)
    requires passes.Valid(vocabulary, ids, skills) && id in ids && path in LabelPaths(skills) && passes.Labels((id, path))
    requires AuditAccepted(vocabulary, passes, employers, AllKeys(ids, skills), audit) && rubric != ""
    ensures MergedRight(vocabulary, passes, audit, rubric, (id, path), Merged(passes, audit, rubric, (id, path)))
  {
    hide MustAudit, LabelPaths, RawValid, AnnotationValid, MergeAdjudicated, Passes.Valid, FinalValid;
    var key := (id, path);
    assert key in AllKeys(ids, skills);
    PassFacts(vocabulary, ids, skills, passes, id, path);
    if key in audit.disagreements {
      AdjudicatedIsValid(vocabulary, path, passes.Claude(key), passes.Sol(key), audit.disagreements[key], rubric,
                         passes.claude.frozenAt, passes.sol.frozenAt);
      AdjudicatedIsSigned(passes, audit.disagreements[key], rubric, key);
    } else {
      AgreedIsValid(vocabulary, path, passes.Claude(key), rubric, LaterOf(passes.claude.frozenAt, passes.sol.frozenAt));
    }
  }

  // The label is the given one of a pass, signed by it when the pass was frozen.
  predicate SignedByPass(s: Signed, given: Label, role: string, pass: Pass) {
    s.given == given && s.role == role && s.frozenAt == pass.frozenAt
  }

  // The label is the user's own, and the second one that of the first pass to differ from it, sol's before claude's.
  ghost predicate AdjudicatedRight(passes: Passes, final: Adjudication, key: Key, a: Annotation)
    requires passes.Labels(key)
  {
    && a.primary.given == final.final && a.primary.frozenAt == final.at && a.disagreement.Some?
    && a.disagreement.value.adjudication == final
    && var second := a.disagreement.value.second;
       && second.given != final.final
       && if passes.Sol(key) != final.final then SignedByPass(second, passes.Sol(key), "sol", passes.sol)
          else SignedByPass(second, passes.Claude(key), "claude", passes.claude)
  }

  // The label is what both passes gave, frozen when the later one was.
  ghost predicate AgreedRight(passes: Passes, key: Key, a: Annotation) {
    && passes.Agree(key) && a.primary.given == passes.Claude(key) && a.disagreement.None?
    && (a.primary.frozenAt == passes.claude.frozenAt || a.primary.frozenAt == passes.sol.frozenAt)
    && a.primary.frozenAt.Aware? && passes.claude.frozenAt.Aware? && passes.sol.frozenAt.Aware?
    && passes.claude.frozenAt.instant <= a.primary.frozenAt.instant
    && passes.sol.frozenAt.instant <= a.primary.frozenAt.instant
  }

  /** The evaluator accepts the annotation, and it is what the passes and the user made of the label. */
  ghost predicate MergedRight(vocabulary: Vocabulary, passes: Passes, audit: Audit, rubric: string, key: Key, a: Annotation) {
    && passes.Labels(key) && AnnotationValid(vocabulary, key.1, a) && a.primary.rubric == rubric
    && if key in audit.disagreements then AdjudicatedRight(passes, audit.disagreements[key], key, a)
       else AgreedRight(passes, key, a)
  }

  // ---------- The split and the build ----------

  /** The lexicographically last employer is held out. */
  method DeterministicSplit(employers: set<string>) returns (holdout: Option<string>)
    ensures holdout.Some? <==> |employers| >= 2
    ensures holdout.Some? ==> IsGreatest(holdout.value, employers)
  {
    if |employers| < 2 {
      return None;
    }
    var last := Greatest(employers);
    return Some(last);
  }

  function SplitOf(holdout: string, employer: string): Split {
    if employer == holdout then Holdout else Dev
  }

  method MergeRecord(passes: Passes, audit: Audit, rubric: string, id: RecordId, paths: set<Path>) returns (annotations: map<Path, Annotation>)
    requires forall path :: path in paths ==> passes.Labels((id, path))
    ensures annotations.Keys == paths
    ensures forall path :: path in paths ==> annotations[path] == Merged(passes, audit, rubric, (id, path))
  {
    hide Merged;
    annotations := map[];
    var rest := paths;
    while rest != {}
      invariant rest <= paths && annotations.Keys == paths - rest
      invariant forall path :: path in annotations ==> annotations[path] == Merged(passes, audit, rubric, (id, path))
      decreases |rest|
    {
      var path :| path in rest;
      rest := rest - {path};
      annotations := annotations[path := Merged(passes, audit, rubric, (id, path))];
    }
  }

  predicate DistinctIds(candidates: seq<Candidate>) {
    forall i, j :: 0 <= i < j < |candidates| ==> candidates[i].id != candidates[j].id
  }

  function IdsOf(candidates: seq<Candidate>): set<RecordId> {
    set c | c in candidates :: c.id
  }

  function EmployersNamed(candidates: seq<Candidate>): set<string> {
    set c | c in candidates :: c.employer
  }

  function EmployerTable(candidates: seq<Candidate>): map<RecordId, string> {
    if candidates == [] then map[]
    else
      var last := candidates[|candidates| - 1];
      EmployerTable(candidates[..|candidates| - 1])[last.id := last.employer]
  }

  lemma {:induction false} TableCovers(candidates: seq<Candidate>)
    ensures EmployerTable(candidates).Keys == IdsOf(candidates)
    ensures DistinctIds(candidates) ==> forall c :: c in candidates ==> EmployerTable(candidates)[c.id] == c.employer
  {
    if candidates != [] {
      var n := |candidates| - 1;
      TableCovers(candidates[..n]);
      assert candidates == candidates[..n] + [candidates[n]];
      assert IdsOf(candidates) == IdsOf(candidates[..n]) + {candidates[n].id};
    }
  }

  // Everything the builder checks before it merges.
  ghost predicate Buildable(vocabulary: Vocabulary, candidates: seq<Candidate>, skills: set<string>, passes: Passes, audit: Audit) {
    var ids := IdsOf(candidates);
    && DistinctIds(candidates) && passes.Valid(vocabulary, ids, skills)
    && AuditAccepted(vocabulary, passes, EmployerTable(candidates), AllKeys(ids, skills), audit)
    && |EmployersNamed(candidates)| >= 2
  }

  // One record as built from its candidate.
  ghost predicate BuiltFrom(passes: Passes, audit: Audit, rubric: string, skills: set<string>, holdout: string, c: Candidate, r: Record) {
    && r.id == c.id && r.employer == c.provenanceEmployer && (r.split == Holdout <==> c.employer == holdout)
    && r.annotations.Keys == LabelPaths(skills)
    && forall path :: path in r.annotations ==>
         passes.Labels((c.id, path)) && r.annotations[path] == Merged(passes, audit, rubric, (c.id, path))
  }

  /** The corpus is built exactly from acceptable evidence, record for record, and the last employer is
      held out. */
  method BuildCorpus(vocabulary: Vocabulary, candidates: seq<Candidate>, skills: set<string>, passes: Passes, audit: Audit, rubric: string)
    returns (built: Option<seq<Record>>, ghost holdout: string)
    ensures built.Some? <==> Buildable(vocabulary, candidates, skills, passes, audit)
    ensures built.Some? ==> |built.value| == |candidates| && IsGreatest(holdout, EmployersNamed(candidates))
    ensures built.Some? ==> forall i :: 0 <= i < |candidates| ==>
      (built.value[i].split == Holdout <==> forall c :: c in candidates ==> AtMost(c.employer, candidates[i].employer))
    ensures built.Some? ==> forall i :: 0 <= i < |candidates| ==>
      BuiltFrom(passes, audit, rubric, skills, holdout, candidates[i], built.value[i])
  {
    hide AuditAccepted, LabelPaths, Merged, PassValid, EmployerTable;
    holdout := "";
    var ids := IdsOf(candidates);
    if !DistinctIds(candidates) || !passes.Valid(vocabulary, ids, skills) {
      return None, holdout;
    }
    TableCovers(candidates);
    KeysAreLabelled(vocabulary, ids, skills, passes);
    var accepted := CheckAudit(vocabulary, passes, EmployerTable(candidates), AllKeys(ids, skills), audit);
    if !accepted {
      return None, holdout;
    }
    var last := DeterministicSplit(EmployersNamed(candidates));
    if last.None? {
      return None, holdout;
    }
    holdout := last.value;
    var records: seq<Record> := [];
    for i := 0 to |candidates|
      invariant |records| == i
      invariant forall k :: 0 <= k < i ==> BuiltFrom(passes, audit, rubric, skills, last.value, candidates[k], records[k])
    {
      var c := candidates[i];
      assert c.id in ids;
      forall path | path in LabelPaths(skills)
        ensures passes.Labels((c.id, path))
      {
        assert (c.id, path) in AllKeys(ids, skills);
      }
      var annotations := MergeRecord(passes, audit, rubric, c.id, LabelPaths(skills));
      records := records + [Record(c.id, c.provenanceEmployer, SplitOf(last.value, c.employer), annotations)];
    }
    HeldOutIsGreatest(candidates, holdout);
    built := Some(records);
  }

  // The employer held out is the one no other comes after.
  lemma HeldOutIsGreatest(candidates: seq<Candidate>, holdout: string)
    requires IsGreatest(holdout, EmployersNamed(candidates))
    ensures forall i :: 0 <= i < |candidates| ==>
      (candidates[i].employer == holdout <==> forall c :: c in candidates ==> AtMost(c.employer, candidates[i].employer))
  {
    hide AtMost;
    forall i | 0 <= i < |candidates| && forall c :: c in candidates ==> AtMost(c.employer, candidates[i].employer)
      ensures candidates[i].employer == holdout
    {
      var last :| last in candidates && last.employer == holdout;
      assert candidates[i] in candidates;
      AtMostTotal(candidates[i].employer, holdout);
    }
    assert forall c :: c in candidates ==> c.employer in EmployersNamed(candidates);
  }

  lemma KeysAreLabelled(vocabulary: Vocabulary, ids: set<RecordId>, skills: set<string>, passes: Passes)
    requires passes.Valid(vocabulary, ids, skills)
    ensures forall key :: key in AllKeys(ids, skills) ==> passes.Labels(key) && key.0 in ids
  {
    hide LabelPaths, RawValid;
  }

  // ---------- What the evaluator says of a built corpus ----------

  ghost predicate BuiltAll(passes: Passes, audit: Audit, rubric: string, skills: set<string>, holdout: string,
                           candidates: seq<Candidate>, records: seq<Record>) {
    |records| == |candidates| && IsGreatest(holdout, EmployersNamed(candidates))
    && forall i :: 0 <= i < |candidates| ==> BuiltFrom(passes, audit, rubric, skills, holdout, candidates[i], records[i])
  }

  /** Every record of every built corpus passes the evaluator's annotation rules, exhaustively. */
  lemma BuiltRecordsAreValid(vocabulary: Vocabulary, candidates: seq<Candidate>, skills: set<string>, passes: Passes, audit: Audit,
                             rubric: string, holdout: string, records: seq<Record>, i: nat)
    requires Buildable(vocabulary, candidates, skills, passes, audit) && rubric != "" && i < |candidates|
    requires BuiltAll(passes, audit, rubric, skills, holdout, candidates, records)
    ensures AnnotationsValid(vocabulary, skills, records[i])
    ensures forall path :: path in LabelPaths(skills) ==>
      path in records[i].annotations
      && MergedRight(vocabulary, passes, audit, rubric, (candidates[i].id, path), records[i].annotations[path])
  {
    hide AuditAccepted, LabelPaths, Merged, PassValid, EmployerTable, AnnotationValid, IsGreatest, AdjudicatedRight, AgreedRight;
    var r := records[i];
    assert BuiltFrom(passes, audit, rubric, skills, holdout, candidates[i], r);
    assert candidates[i].id in IdsOf(candidates);
    forall path | path in r.annotations
      ensures AnnotationValid(vocabulary, path, r.annotations[path])
      ensures MergedRight(vocabulary, passes, audit, rubric, (candidates[i].id, path), r.annotations[path])
    {
      MergedIsValid(vocabulary, IdsOf(candidates), skills, passes, EmployerTable(candidates), audit, rubric, candidates[i].id, path);
    }
  }

  // No provenance employer is named on both sides of the split.
  ghost predicate SidesAgree(candidates: seq<Candidate>, holdout: string) {
    forall i, j | 0 <= i < |candidates| && 0 <= j < |candidates|
      && candidates[i].provenanceEmployer == candidates[j].provenanceEmployer ::
      SplitOf(holdout, candidates[i].employer) == SplitOf(holdout, candidates[j].employer)
  }

  lemma BothSidesFilled(passes: Passes, audit: Audit, rubric: string, skills: set<string>, holdout: string,
                        candidates: seq<Candidate>, records: seq<Record>)
    requires BuiltAll(passes, audit, rubric, skills, holdout, candidates, records) && |EmployersNamed(candidates)| >= 2
    ensures EmployersOf(records, Dev) != {} && EmployersOf(records, Holdout) != {}
  {
    hide LabelPaths, Merged;
    var employers := EmployersNamed(candidates);
    assert employers == {holdout} + (employers - {holdout});
    var other :| other in employers - {holdout};
    var c: Candidate :| c in candidates && c.employer == holdout;
    var d: Candidate :| d in candidates && d.employer == other;
    var i :| 0 <= i < |candidates| && candidates[i] == c;
    var j :| 0 <= j < |candidates| && candidates[j] == d;
    assert BuiltFrom(passes, audit, rubric, skills, holdout, c, records[i]);
    assert BuiltFrom(passes, audit, rubric, skills, holdout, d, records[j]);
    assert records[i].employer in EmployersOf(records, Holdout) && records[j].employer in EmployersOf(records, Dev);
  }

  /** The split is taken from the candidate's employer and checked against the provenance's: a built
      corpus is employer-disjoint exactly when no provenance employer is named on both sides, which
      holds whenever the two names agree. */
  lemma PartitionExactly(passes: Passes, audit: Audit, rubric: string, skills: set<string>, holdout: string,
                         candidates: seq<Candidate>, records: seq<Record>)
    requires BuiltAll(passes, audit, rubric, skills, holdout, candidates, records) && |EmployersNamed(candidates)| >= 2
    ensures PartitionValid(records) <==> SidesAgree(candidates, holdout)
    ensures (forall c :: c in candidates ==> c.employer == c.provenanceEmployer) ==> PartitionValid(records)
  {
    hide LabelPaths, Merged, IsGreatest;
    BothSidesFilled(passes, audit, rubric, skills, holdout, candidates, records);
    forall i | 0 <= i < |candidates|
      ensures records[i].employer == candidates[i].provenanceEmployer
      ensures records[i].split == SplitOf(holdout, candidates[i].employer)
      ensures records[i].employer in EmployersOf(records, records[i].split)
    {
      assert BuiltFrom(passes, audit, rubric, skills, holdout, candidates[i], records[i]);
      assert records[i] in records;
    }
    if SidesAgree(candidates, holdout) {
      forall e | e in EmployersOf(records, Dev)
        ensures e !in EmployersOf(records, Holdout)
      {
        var r: Record :| r in records && r.split == Dev && r.employer == e;
        var i :| 0 <= i < |records| && records[i] == r;
      }
    }
    if PartitionValid(records) {
      forall i, j | 0 <= i < |candidates| && 0 <= j < |candidates|
        && candidates[i].provenanceEmployer == candidates[j].provenanceEmployer
        ensures SplitOf(holdout, candidates[i].employer) == SplitOf(holdout, candidates[j].employer)
      {
        assert records[i].employer == records[j].employer;
      }
    }
    if forall c :: c in candidates ==> c.employer == c.provenanceEmployer {
      assert forall i :: 0 <= i < |candidates| ==> candidates[i] in candidates;
    }
  }

  // ---------- Where the two employer names differ ----------

  // Two candidates of different employers with the same provenance employer.
  function SharedProvenance(): seq<Candidate> {
    [Candidate("a:1", "acme", "acme"), Candidate("b:1", "bolt", "acme")]
  }

  // Both passes find nothing anywhere, and every agreement is audited and upheld.
  function NothingFound(): Pass {
    var labels := map path | path in LabelPaths({}) :: ScoredLabel(Absent, None, Unavailable);
    Pass(Aware(0), map["a:1" := labels, "b:1" := labels])
  }

  function AllUpheld(): Audit {
    Audit(map[], map key | key in AllKeys({"a:1", "b:1"}, {}) :: AuditEntry(HUMAN, Aware(0), false))
  }

  lemma NothingFoundIsValid(vocabulary: Vocabulary)
    ensures Passes(NothingFound(), NothingFound()).Valid(vocabulary, {"a:1", "b:1"}, {})
    ensures forall key :: key in AllKeys({"a:1", "b:1"}, {}) ==> Passes(NothingFound(), NothingFound()).Agree(key)
  {
    forall path | path in LabelPaths({})
      ensures !path.SkillPath?
    {
      UnskilledPaths(path);
    }
    hide LabelPaths;
  }

  lemma UnskilledPaths(path: Path)
    requires path in LabelPaths({})
    ensures !path.SkillPath?
  {
  }

  lemma SharedProvenanceIsBuildable(vocabulary: Vocabulary)
    ensures Buildable(vocabulary, SharedProvenance(), {}, Passes(NothingFound(), NothingFound()), AllUpheld())
    ensures EmployersNamed(SharedProvenance()) == {"acme", "bolt"} && |EmployersNamed(SharedProvenance())| == 2
  {
    hide LabelPaths, NothingFound, PassValid, FinalValid;
    var candidates := SharedProvenance();
    NothingFoundIsValid(vocabulary);
    assert candidates[0] in candidates && candidates[1] in candidates;
    assert IdsOf(candidates) == {"a:1", "b:1"} && EmployersNamed(candidates) == {"acme", "bolt"};
  }

  /** Acceptable evidence from which every corpus that is built fails the partition check: the two
      records lie on different sides under one provenance employer. */
  lemma DisagreeingEmployersBreakThePartition(vocabulary: Vocabulary)
    ensures var passes := Passes(NothingFound(), NothingFound());
            && Buildable(vocabulary, SharedProvenance(), {}, passes, AllUpheld())
            && forall rubric, holdout, records | BuiltAll(passes, AllUpheld(), rubric, {}, holdout, SharedProvenance(), records) ::
                 holdout == "bolt" && !PartitionValid(records)
  {
    hide LabelPaths, Merged, Buildable, NothingFound, AllUpheld, BuiltFrom, PartitionValid;
    var candidates, passes := SharedProvenance(), Passes(NothingFound(), NothingFound());
    SharedProvenanceIsBuildable(vocabulary);
    assert !AtMost("bolt", "acme");
    forall rubric, holdout, records | BuiltAll(passes, AllUpheld(), rubric, {}, holdout, candidates, records)
      ensures holdout == "bolt" && !PartitionValid(records)
    {
      PartitionExactly(passes, AllUpheld(), rubric, {}, holdout, candidates, records);
      SidesDiffer(holdout);
    }
  }

  lemma SidesDiffer(holdout: string)
    requires holdout in {"acme", "bolt"}
    ensures !SidesAgree(SharedProvenance(), holdout)
  {
    var candidates := SharedProvenance();
    assert candidates[0].provenanceEmployer == candidates[1].provenanceEmployer;
    assert SplitOf(holdout, candidates[0].employer) != SplitOf(holdout, candidates[1].employer);
  }
}
