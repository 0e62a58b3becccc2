/** The employment-type classifier over tokenized title segments and description sentences. */
module Employment {
  import opened Options
  import opened Evidence
  import opened Negation
  import opened Classification

  datatype EmploymentType = FullTime | PartTime | SeasonalWork | Internship

  type Catalog = set<Entry<EmploymentType>>

  // Bare markers; both spellings of a compound tokenize to the same phrase.
  function Bare(): Catalog {
    {
      Entry(["full", "time"], FullTime), Entry(["part", "time"], PartTime), Entry(["seasonal"], SeasonalWork),
      Entry(["internship"], Internship), Entry(["intern"], Internship)}
  }

  function Qualified(): Catalog {
    Arranged(["full", "time"], FullTime, {"position", "role", "job", "basis", "employment"})
    + Arranged(["part", "time"], PartTime, {"position", "role", "job", "basis", "employment"})
    + Arranged(["seasonal"], SeasonalWork, {"position", "role", "job", "basis", "employment", "work"})
    + Arranged(["internship"], Internship, {"position", "role", "program", "opportunity"})
  }

  function Arranged(prefix: Phrase, kind: EmploymentType, nouns: set<Token>): Catalog {
    set noun | noun in nouns :: Entry(prefix + [noun], kind)
  }

  // Phrases of other axes, removed from the text before anything is searched.
  function Mask(): set<Phrase> {
    {["contract"], ["temporary"], ["temp"], ["contract", "to", "hire"], ["temp", "to", "perm"],
     ["1099"], ["w2"], ["w", "2"], ["per", "diem"]}
  }

  const NEGATION_CUES: set<Token> := {"not", "no", "neither", "isn't", "aren't", "without", "unavailable"}

  // Candidates after a negator bind first; one determiner may follow a conjunction.
  const BINDING := Binding({"a", "an", "the"}, true)

  /** No two mask phrases can overlap in any text unless one lies inside the other. */
  lemma MaskNests()
    ensures Nesting(Mask())
  {
    HeadsNest(Mask(), {"contract", "temp", "w", "per"});
  }

  // ---------- Compaction ----------

  /** The text without other-axis phrases: the tokens no mask phrase covers, in order. */
  ghost function Uncovered(tokens: seq<Token>, upTo: nat): (r: seq<Token>)
    requires upTo <= |tokens|
  {
    if upTo == 0 then []
    else Uncovered(tokens, upTo - 1) + (if Covered(tokens, Mask(), upTo - 1) then [] else [tokens[upTo - 1]])
  }

  ghost function Compacted(tokens: seq<Token>): seq<Token> {
    Uncovered(tokens, |tokens|)
  }

  lemma {:induction false} CompactIsUncovered(tokens: seq<Token>, masked: seq<bool>, upTo: nat)
    requires |masked| == |tokens| && upTo <= |tokens|
    requires forall i :: 0 <= i < |tokens| ==> (masked[i] <==> Covered(tokens, Mask(), i))
    ensures Compact(tokens[..upTo], masked[..upTo]) == Uncovered(tokens, upTo)
  {
    hide Covered, Mask;
    if upTo > 0 {
      CompactIsUncovered(tokens, masked, upTo - 1);
      assert tokens[..upTo][..upTo - 1] == tokens[..upTo - 1] && masked[..upTo][..upTo - 1] == masked[..upTo - 1];
    }
  }

  method CompactTokens(tokens: seq<Token>, maskOrder: seq<Phrase>) returns (compacted: seq<Token>)
    requires Elements(maskOrder) == Mask() && LongestFirst(maskOrder)
    ensures compacted == Compacted(tokens)
  {
    hide Covered, Nesting, Mask;
    MaskNests();
    var masked := MaskPhrases(tokens, maskOrder);
    CompactIsUncovered(tokens, masked[..], |tokens|);
    assert tokens[..|tokens|] == tokens && masked[..][..|tokens|] == masked[..];
    compacted := Compact(tokens, masked[..]);
  }

  // A covered token belongs to some mask phrase's occurrence.
  lemma CoverFound(tokens: seq<Token>, i: nat) returns (p: Phrase, at: nat)
    requires i < |tokens| && Covered(tokens, Mask(), i)
    ensures p in Mask() && at <= i < at + |p| && Occurs(tokens, p, at)
  {
    hide Mask;
    p :| p in Mask() && CoveredBy(tokens, p, i);
    at :| 0 <= at <= i < at + |p| && Occurs(tokens, p, at);
  }

  /** Removing the covered tokens once may bring a new mask phrase together. */
  lemma CompactingIsNotIdempotent()
    ensures Compacted(["per", "temp", "diem"]) == ["per", "diem"]
    ensures Compacted(["per", "diem"]) == []
  {
    hide Covered;
    var once, twice := ["per", "temp", "diem"], ["per", "diem"];
    NothingAround(once);
    assert Covered(once, Mask(), 1) by {
      ShowCovered(once, ["temp"], 1, 1);
    }
    assert Covered(twice, Mask(), 0) && Covered(twice, Mask(), 1) by {
      ShowCovered(twice, ["per", "diem"], 0, 0);
      ShowCovered(twice, ["per", "diem"], 0, 1);
    }
    assert Uncovered(once, 1) == ["per"] && Uncovered(once, 2) == ["per"] && Uncovered(once, 3) == ["per", "diem"];
    assert Uncovered(twice, 1) == [] && Uncovered(twice, 2) == [];
  }

  lemma NothingAround(tokens: seq<Token>)
    requires tokens == ["per", "temp", "diem"]
    ensures !Covered(tokens, Mask(), 0) && !Covered(tokens, Mask(), 2)
  {
    hide Covered;
    if Covered(tokens, Mask(), 0) {
      var p, at := CoverFound(tokens, 0);
      ReadAt(tokens, p, at, 0);
      ReadAt(tokens, p, at, 1);
    }
    if Covered(tokens, Mask(), 2) {
      var p, at := CoverFound(tokens, 2);
      ReadAt(tokens, p, at, 0);
      ReadAt(tokens, p, at, 1);
      ReadAt(tokens, p, at, 2);
    }
  }

  lemma ShowCovered(tokens: seq<Token>, p: Phrase, at: nat, i: nat)
    requires p in Mask() && Occurs(tokens, p, at) && at <= i < at + |p|
    ensures Covered(tokens, Mask(), i)
  {
    assert CoveredBy(tokens, p, i);
  }

  // A text is its own compaction exactly when no mask phrase occurs in it.
  lemma CompactedIsFixed(tokens: seq<Token>)
    ensures Compacted(tokens) == tokens <==> forall p, at: nat :: p in Mask() ==> !Occurs(tokens, p, at)
  {
    hide Covered;
    if p: Phrase, at: nat :| p in Mask() && Occurs(tokens, p, at) {
      ShowCovered(tokens, p, at, at);
      UncoveredShrinks(tokens, |tokens|, at);
    } else {
      forall i: nat | i < |tokens|
        ensures !Covered(tokens, Mask(), i)
      {
        if Covered(tokens, Mask(), i) {
          var p, at := CoverFound(tokens, i);
        }
      }
      NothingCovered(tokens, |tokens|);
    }
  }

  // The two tokens of a mask phrase, kept apart only by tokens that compacting removes.
  ghost predicate Meets(tokens: seq<Token>, i: nat, j: nat) {
    && i + 1 < j < |tokens| && [tokens[i], tokens[j]] in {["per", "diem"], ["w", "2"]}
    && !Covered(tokens, Mask(), i) && !Covered(tokens, Mask(), j)
    && forall k :: i < k < j ==> Covered(tokens, Mask(), k)
  }

  /** Compacting twice is compacting once exactly when no "per" meets a "diem" and no "w" a "2": no
      other mask phrase can come together, for its head is a mask phrase by itself. */
  lemma CompactingIsIdempotentExactly(tokens: seq<Token>)
    ensures Compacted(Compacted(tokens)) == Compacted(tokens) <==> !exists i, j :: Meets(tokens, i, j)
  {
    hide Covered, Compacted, Mask;
    CompactedIsFixed(Compacted(tokens));
    if i, j :| Meets(tokens, i, j) {
      MeetingOccurs(tokens, i, j);
    }
    if p: Phrase, at: nat :| p in Mask() && Occurs(Compacted(tokens), p, at) {
      OccurrenceMeets(tokens, p, at);
    }
  }

  lemma MeetingOccurs(tokens: seq<Token>, i: nat, j: nat)
    requires Meets(tokens, i, j)
    ensures [tokens[i], tokens[j]] in Mask() && Occurs(Compacted(tokens), [tokens[i], tokens[j]], |Uncovered(tokens, i)|)
  {
    MeetingIsMask(tokens, i, j);
    MeetingIsKept(tokens, i, j);
    hide Meets, Occurs, Uncovered, Mask;
    PairAt(Uncovered(tokens, i), tokens[i], tokens[j], Compacted(tokens));
  }

  lemma MeetingIsKept(tokens: seq<Token>, i: nat, j: nat)
    requires Meets(tokens, i, j)
    ensures Uncovered(tokens, i) + [tokens[i]] + [tokens[j]] <= Compacted(tokens)
  {
    hide Covered, Mask, Uncovered;
    UncoveredNext(tokens, i);
    UncoveredGrows(tokens, i + 1, j);
    UncoveredNext(tokens, j);
    UncoveredGrows(tokens, j + 1, |tokens|);
  }

  lemma MeetingIsMask(tokens: seq<Token>, i: nat, j: nat)
    requires Meets(tokens, i, j)
    ensures [tokens[i], tokens[j]] in Mask()
  {
    hide Covered;
  }

  lemma UncoveredNext(tokens: seq<Token>, i: nat)
    requires i < |tokens| && !Covered(tokens, Mask(), i)
    ensures Uncovered(tokens, i + 1) == Uncovered(tokens, i) + [tokens[i]]
  {
    hide Covered, Mask;
  }

  lemma PairAt(before: seq<Token>, a: Token, b: Token, whole: seq<Token>)
    requires before + [a] + [b] <= whole
    ensures Occurs(whole, [a, b], |before|)
  {
    var n := |before|;
    assert whole[..n + 2] == before + [a] + [b];
    assert whole[n] == (before + [a] + [b])[n] == a && whole[n + 1] == (before + [a] + [b])[n + 1] == b;
    assert whole[n..n + 2] == [a, b];
  }

  // Which token of the text a token of its compaction is.
  lemma {:induction false} PlaceIn(tokens: seq<Token>, upTo: nat, k: nat) returns (i: nat)
    requires upTo <= |tokens| && k < |Uncovered(tokens, upTo)|
    ensures i < upTo && !Covered(tokens, Mask(), i) && tokens[i] == Uncovered(tokens, upTo)[k]
    ensures |Uncovered(tokens, i)| == k && |Uncovered(tokens, i + 1)| == k + 1
  {
    hide Covered, Mask;
    if k < |Uncovered(tokens, upTo - 1)| {
      i := PlaceIn(tokens, upTo - 1, k);
    } else {
      i := upTo - 1;
    }
  }

  lemma OccurrenceMeets(tokens: seq<Token>, p: Phrase, at: nat)
    requires p in Mask() && Occurs(Compacted(tokens), p, at)
    ensures exists i, j :: Meets(tokens, i, j)
  {
    hide Covered, Mask, Uncovered;
    MaskShapes(p);
    ReadAt(Compacted(tokens), p, at, 0);
    var i := PlaceIn(tokens, |tokens|, at);
    if [p[0]] in Mask() {
      OccursAlone(tokens, p[0], i);
    } else {
      ReadAt(Compacted(tokens), p, at, 1);
      var j := PlaceIn(tokens, |tokens|, at + 1);
      PlacesAreNext(tokens, i, j);
      assert [tokens[i], tokens[j]] == p;
      if j == i + 1 {
        PairAt(tokens[..i], tokens[i], tokens[j], tokens);
        ShowCovered(tokens, p, i, i);
      }
      assert Meets(tokens, i, j);
    }
  }

  lemma OccursAlone(tokens: seq<Token>, head: Token, i: nat)
    requires i < |tokens| && tokens[i] == head && [head] in Mask()
    ensures Covered(tokens, Mask(), i)
  {
    hide Covered, Mask;
    assert tokens[i..i + 1] == [head];
    ShowCovered(tokens, [head], i, i);
  }

  // A mask phrase is a head that is a mask phrase itself, or one of the two whose head is not.
  lemma MaskShapes(p: Phrase)
    requires p in Mask()
    ensures |p| > 0 && ([p[0]] in Mask() || p in {["per", "diem"], ["w", "2"]})
  {
  }

  lemma PlacesAreNext(tokens: seq<Token>, i: nat, j: nat)
    requires i < |tokens| && j < |tokens| && |Uncovered(tokens, i + 1)| == |Uncovered(tokens, j)|
    requires |Uncovered(tokens, i)| < |Uncovered(tokens, i + 1)| && |Uncovered(tokens, j)| < |Uncovered(tokens, j + 1)|
    ensures i < j && forall k :: i < k < j ==> Covered(tokens, Mask(), k)
  {
    hide Covered, Mask, Uncovered;
    if j <= i {
      UncoveredGrows(tokens, j + 1, i + 1);
    }
    forall k | i < k < j
      ensures Covered(tokens, Mask(), k)
    {
      UncoveredGrows(tokens, i + 1, k);
      UncoveredGrows(tokens, k + 1, j);
      if !Covered(tokens, Mask(), k) {
        UncoveredNext(tokens, k);
      }
    }
  }

  lemma {:induction false} UncoveredGrows(tokens: seq<Token>, m: nat, n: nat)
    requires m <= n <= |tokens|
    ensures Uncovered(tokens, m) <= Uncovered(tokens, n)
    ensures (forall k :: m <= k < n ==> Covered(tokens, Mask(), k)) ==> Uncovered(tokens, m) == Uncovered(tokens, n)
  {
    hide Covered, Mask;
    if m < n {
      UncoveredGrows(tokens, m, n - 1);
    }
  }

  lemma {:induction false} UncoveredShrinks(tokens: seq<Token>, upTo: nat, i: nat)
    requires upTo <= |tokens|
    ensures |Uncovered(tokens, upTo)| <= upTo
    ensures i < upTo && Covered(tokens, Mask(), i) ==> |Uncovered(tokens, upTo)| < upTo
  {
    hide Covered, Mask;
    if upTo > 0 {
      UncoveredShrinks(tokens, upTo - 1, i);
    }
  }

  lemma {:induction false} NothingCovered(tokens: seq<Token>, upTo: nat)
    requires upTo <= |tokens| && forall i: nat :: i < |tokens| ==> !Covered(tokens, Mask(), i)
    ensures Uncovered(tokens, upTo) == tokens[..upTo]
  {
    hide Covered, Mask;
    if upTo > 0 {
      NothingCovered(tokens, upTo - 1);
    }
  }

  // ---------- Title ----------

  /** A segment says a value when, without its other-axis phrases, it is exactly a bare marker. */
  ghost predicate SegmentSays(segment: seq<Token>, kind: EmploymentType) {
    exists e :: e in Bare() && e.phrase == Compacted(segment) && e.kind == kind
  }

  // The uncovered tokens spell the phrase, one after the other.
  ghost predicate SpelledBy(tokens: seq<Token>, places: seq<nat>, phrase: Phrase) {
    && (forall i: nat :: i in places <==> i < |tokens| && !Covered(tokens, Mask(), i))
    && (forall j, k :: 0 <= j < k < |places| ==> places[j] < places[k])
    && |places| == |phrase| && forall k :: 0 <= k < |places| ==> places[k] < |tokens| && tokens[places[k]] == phrase[k]
  }

  // The same, without speaking of the compacted text: the uncovered tokens spell a bare marker of the value.
  lemma SegmentSaysExactly(segment: seq<Token>, kind: EmploymentType)
    ensures SegmentSays(segment, kind) <==>
      exists phrase: Phrase, places: seq<nat> :: Entry(phrase, kind) in Bare() && SpelledBy(segment, places, phrase)
  {
    hide Covered, Mask, Bare, Uncovered;
    var masked := seq(|segment|, i requires 0 <= i < |segment| => Covered(segment, Mask(), i));
    CompactIsUncovered(segment, masked, |segment|);
    assert segment[..|segment|] == segment && masked[..|segment|] == masked;
    var places := CompactKeepsExactly(segment, masked);
    if SegmentSays(segment, kind) {
      var e :| e in Bare() && e.phrase == Compacted(segment) && e.kind == kind;
      assert e == Entry(e.phrase, kind) && SpelledBy(segment, places, e.phrase);
    }
    if phrase: Phrase, others: seq<nat> :| Entry(phrase, kind) in Bare() && SpelledBy(segment, others, phrase) {
      SamePlaces(places, others);
      assert phrase == Compacted(segment);
      assert Entry(phrase, kind).phrase == Compacted(segment);
    }
  }

  method TitleSurvivors(segments: seq<seq<Token>>, maskOrder: seq<Phrase>) returns (survivors: set<EmploymentType>)
    requires Elements(maskOrder) == Mask() && LongestFirst(maskOrder)
    ensures forall kind :: kind in survivors <==> TitleSays(segments, kind)
  {
    hide Compacted, Mask, LongestFirst;
    survivors := {};
    for n := 0 to |segments|
      invariant forall kind :: kind in survivors <==> exists i :: 0 <= i < n && SegmentSays(segments[i], kind)
    {
      var compacted := CompactTokens(segments[n], maskOrder);
      survivors := survivors + (set e | e in Bare() && e.phrase == compacted :: e.kind);
    }
  }

  // ---------- Description ----------

  ghost function AllCandidates(tokens: seq<Token>): set<Candidate<EmploymentType>> {
    Candidates(tokens, [], Qualified(), true) + Candidates(tokens, [], Bare(), false)
  }

  function Negators(tokens: seq<Token>, upTo: nat): (r: seq<nat>)
    requires upTo <= |tokens|
    ensures forall i :: i in r <==> 0 <= i < upTo && tokens[i] in NEGATION_CUES
  {
    if upTo == 0 then []
    else Negators(tokens, upTo - 1) + (if tokens[upTo - 1] in NEGATION_CUES then [upTo - 1] else [])
  }

  lemma AllPlacedHere(tokens: seq<Token>)
    ensures AllPlaced(tokens, AllCandidates(tokens))
  {
    hide Candidates, Qualified, Bare;
    CandidatesPlaced(tokens, [], Qualified(), true);
    CandidatesPlaced(tokens, [], Bare(), false);
  }

  /** A sentence says a value when no negator in it is left unresolved and some arrangement phrase of
      that value is not struck. */
  ghost predicate SentenceSays(sentence: seq<Token>, kind: EmploymentType) {
    var tokens := Compacted(sentence);
    var all, negators := AllCandidates(tokens), Elements(Negators(tokens, |tokens|));
    AllPlacedHere(tokens);
    !Unresolved(all, negators) && SomeUnstruck(tokens, all, negators, kind)
  }

  ghost predicate SomeUnstruck(tokens: seq<Token>, all: set<Candidate<EmploymentType>>, negators: set<nat>, kind: EmploymentType)
    requires AllPlaced(tokens, all)
  {
    exists c :: c in all && c.qualified && c.kind == kind && !Struck(BINDING, tokens, all, negators, c)
  }

  // ---------- What a sentence says, token by token ----------

  // The phrase of a value, as an arrangement or bare, is read at the candidate's place.
  predicate Spells(tokens: seq<Token>, c: Candidate<EmploymentType>) {
    c.start <= c.end < |tokens| && Entry(tokens[c.start..c.end + 1], c.kind) in (if c.qualified then Qualified() else Bare())
  }

  predicate IsNegator(tokens: seq<Token>, n: nat) {
    n < |tokens| && tokens[n] in NEGATION_CUES
  }

  lemma CandidatesAreSpelled(tokens: seq<Token>, c: Candidate<EmploymentType>)
    ensures c in AllCandidates(tokens) <==> Spells(tokens, c)
  {
    hide Candidates, Qualified, Bare;
    CandidatesSpell(tokens, [], Qualified(), true, c);
    CandidatesSpell(tokens, [], Bare(), false, c);
    if c.start <= c.end < |tokens| {
      var phrase := tokens[c.start..c.end + 1];
      assert forall e: Entry<EmploymentType> :: e.phrase == phrase && e.kind == c.kind <==> e == Entry(phrase, c.kind);
    }
  }

  // Every negator has a phrase, of whatever value, within three tokens; or there is none at all.
  ghost predicate AllNegatorsBind(tokens: seq<Token>) {
    forall n: nat, d :: IsNegator(tokens, n) && Spells(tokens, d) ==>
      exists c: Candidate<EmploymentType> :: Spells(tokens, c) && InReach(n, c)
  }

  // A set that holds whatever a negator binds and whatever is coordinated with a member.
  ghost predicate Withdrawn(tokens: seq<Token>, s: set<Candidate<EmploymentType>>) {
    AllPlacedHere(tokens);
    Bound(BINDING, tokens, AllCandidates(tokens), Elements(Negators(tokens, |tokens|)), s)
  }

  /** What a sentence says: without its other-axis phrases, every negator binds some phrase, and an
      arrangement phrase of the value escapes some set that holds all that negators bind and all that is
      coordinated with a member. */
  lemma SentenceSaysExactly(sentence: seq<Token>, kind: EmploymentType)
    ensures var tokens := Compacted(sentence);
            SentenceSays(sentence, kind) <==>
              AllNegatorsBind(tokens)
              && exists c: Candidate<EmploymentType>, s: set<Candidate<EmploymentType>> ::
                   c.kind == kind && c.qualified && Spells(tokens, c) && Withdrawn(tokens, s) && c !in s
  {
    var tokens := Compacted(sentence);
    var all, negators := AllCandidates(tokens), Elements(Negators(tokens, |tokens|));
    AllPlacedHere(tokens);
    AllSpelled(tokens);
    hide Compacted, Spells, AllCandidates, Struck, Bound, Unresolved, AllNegatorsBind;
    UnresolvedHere(tokens);
    forall c | c in all
      ensures !Struck(BINDING, tokens, all, negators, c) <==> exists s :: Withdrawn(tokens, s) && c !in s
    {
      StruckExactly(BINDING, tokens, all, negators, c);
    }
  }

  lemma AllSpelled(tokens: seq<Token>)
    ensures forall c :: c in AllCandidates(tokens) <==> Spells(tokens, c)
    ensures AllOrdered(AllCandidates(tokens))
  {
    hide AllCandidates, Qualified, Bare;
    forall c
      ensures c in AllCandidates(tokens) <==> Spells(tokens, c)
    {
      CandidatesAreSpelled(tokens, c);
    }
  }

  lemma UnresolvedHere(tokens: seq<Token>)
    ensures Unresolved(AllCandidates(tokens), Elements(Negators(tokens, |tokens|))) <==> !AllNegatorsBind(tokens)
  {
    var all, negators := AllCandidates(tokens), Elements(Negators(tokens, |tokens|));
    AllSpelled(tokens);
    UnresolvedMeans(all, negators);
    assert forall n: nat :: n in negators <==> IsNegator(tokens, n);
    hide AllCandidates, Spells, InReach, Unresolved, Elements, IsNegator;
    if !AllNegatorsBind(tokens) {
      var n: nat, d :| IsNegator(tokens, n) && Spells(tokens, d)
        && !exists c: Candidate<EmploymentType> :: Spells(tokens, c) && InReach(n, c);
      assert d in all && n in negators;
    }
    if all != {} && exists n :: n in negators && forall c :: c in all ==> !InReach(n, c) {
      var n :| n in negators && forall c :: c in all ==> !InReach(n, c);
      var d :| d in all;
      assert Spells(tokens, d) && IsNegator(tokens, n);
    }
  }

  /** A sentence without negators says exactly what its arrangement phrases spell. */
  lemma WithoutNegators(sentence: seq<Token>, kind: EmploymentType)
    requires forall n: nat :: !IsNegator(Compacted(sentence), n)
    ensures SentenceSays(sentence, kind) <==>
      exists c: Candidate<EmploymentType> :: c.kind == kind && c.qualified && Spells(Compacted(sentence), c)
  {
    hide Compacted, Spells, Withdrawn, SentenceSays, IsNegator;
    var tokens := Compacted(sentence);
    SentenceSaysExactly(sentence, kind);
    NothingWithdrawn(tokens);
    assert AllNegatorsBind(tokens);
    if c: Candidate<EmploymentType> :| c.kind == kind && c.qualified && Spells(tokens, c) {
      var none: set<Candidate<EmploymentType>> := {};
      assert Withdrawn(tokens, none) && c !in none;
    }
  }

  lemma NothingWithdrawn(tokens: seq<Token>)
    requires forall n: nat :: !IsNegator(tokens, n)
    ensures Withdrawn(tokens, {})
  {
    AllPlacedHere(tokens);
    assert forall n: nat :: n in Elements(Negators(tokens, |tokens|)) ==> IsNegator(tokens, n);
    hide AllCandidates, Closest, Coordinated, Negators, Elements;
  }

  /** A phrase with a token within three of a negator is withdrawn when no other phrase is as near. */
  lemma NearestAloneIsStruck(tokens: seq<Token>, n: nat, c: Candidate<EmploymentType>, s: set<Candidate<EmploymentType>>)
    requires IsNegator(tokens, n) && Spells(tokens, c) && InReach(n, c) && Withdrawn(tokens, s)
    requires forall d :: Spells(tokens, d) && d != c ==> !InReach(n, d)
    ensures c in s
  {
    var all, negators := AllCandidates(tokens), Elements(Negators(tokens, |tokens|));
    AllSpelled(tokens);
    AllPlacedHere(tokens);
    assert n in negators;
    hide AllCandidates, Spells, Elements, IsNegator, Negators;
    OnlyOneInReach(all, n, c);
    assert Bound(BINDING, tokens, all, negators, s);
  }

  lemma OnlyOneInReach(all: set<Candidate<EmploymentType>>, n: nat, c: Candidate<EmploymentType>)
    requires AllOrdered(all) && c in all && InReach(n, c) && forall d :: d in all && d != c ==> !InReach(n, d)
    ensures Closest(BINDING, all, n, c)
  {
    NearestMeans(BINDING, all, n, c);
    forall side, d | d in all
      ensures Eligible(side, n, d) <==> Lies(side, n, d) && InReach(n, d)
      ensures Lies(side, n, d) <==> OnSide(side, n, d)
    {
      assert Ordered(d);
      EligibleMeans(side, n, d);
    }
    hide InReach, Lies, Closest, From;
  }

  method SentenceSurvivors(sentence: seq<Token>, maskOrder: seq<Phrase>, qualifiedOrder: seq<Entry<EmploymentType>>,
                           bareOrder: seq<Entry<EmploymentType>>) returns (survivors: set<EmploymentType>)
    requires Elements(maskOrder) == Mask() && LongestFirst(maskOrder)
    requires Elements(qualifiedOrder) == Qualified() && Elements(bareOrder) == Bare()
    ensures forall kind :: kind in survivors <==> SentenceSays(sentence, kind)
  {
    hide Compacted, Candidates, Struck, Unresolved, SomeUnstruck, Covered, Qualified, Bare, Mask, LongestFirst;
    var tokens := CompactTokens(sentence, maskOrder);
    var qualified := Collect(tokens, [], qualifiedOrder, true);
    var bare := Collect(tokens, [], bareOrder, false);
    var candidates := qualified + bare;
    assert Values(candidates) == AllCandidates(tokens);
    AllPlacedHere(tokens);
    var negators := Negators(tokens, |tokens|);
    var suppressed, unresolved := Suppress(BINDING, tokens, candidates, negators);
    survivors := {};
    if !unresolved {
      survivors := UnsuppressedKinds(candidates, suppressed);
      SurvivorsAreValues(tokens, candidates, negators, suppressed, survivors);
    }
  }

  method UnsuppressedKinds(candidates: seq<Candidate<EmploymentType>>, suppressed: set<nat>) returns (kinds: set<EmploymentType>)
    ensures forall kind :: kind in kinds <==>
      exists k :: 0 <= k < |candidates| && k !in suppressed && candidates[k].qualified && candidates[k].kind == kind
  {
    kinds := {};
    for i := 0 to |candidates|
      invariant forall kind :: kind in kinds <==>
        exists k :: 0 <= k < i && k !in suppressed && candidates[k].qualified && candidates[k].kind == kind
    {
      if i !in suppressed && candidates[i].qualified {
        kinds := kinds + {candidates[i].kind};
      }
    }
  }

  lemma SurvivorsAreValues(tokens: seq<Token>, candidates: seq<Candidate<EmploymentType>>, negators: seq<nat>,
                           suppressed: set<nat>, survivors: set<EmploymentType>)
    requires Values(candidates) == AllCandidates(tokens) && AllPlaced(tokens, AllCandidates(tokens))
    requires forall i :: 0 <= i < |candidates| ==>
      (i in suppressed <==> Struck(BINDING, tokens, Values(candidates), Elements(negators), candidates[i]))
    requires forall kind :: kind in survivors <==>
      exists k :: 0 <= k < |candidates| && k !in suppressed && candidates[k].qualified && candidates[k].kind == kind
    ensures forall kind :: kind in survivors <==> SomeUnstruck(tokens, AllCandidates(tokens), Elements(negators), kind)
  {
    hide AllCandidates, Struck, Qualified, Bare;
    forall kind
      ensures kind in survivors <==> SomeUnstruck(tokens, AllCandidates(tokens), Elements(negators), kind)
    {
      if SomeUnstruck(tokens, AllCandidates(tokens), Elements(negators), kind) {
        var c :| c in Values(candidates) && c.qualified && c.kind == kind
          && !Struck(BINDING, tokens, Values(candidates), Elements(negators), c);
        var k :| 0 <= k < |candidates| && candidates[k] == c;
      }
      if kind in survivors {
        var k :| 0 <= k < |candidates| && k !in suppressed && candidates[k].qualified && candidates[k].kind == kind;
        assert candidates[k] in Values(candidates);
      }
    }
  }

  ghost predicate TitleSays(segments: seq<seq<Token>>, kind: EmploymentType) {
    exists i :: 0 <= i < |segments| && SegmentSays(segments[i], kind)
  }

  ghost predicate DescriptionSays(sentences: seq<seq<Token>>, kind: EmploymentType) {
    exists i :: 0 <= i < |sentences| && SentenceSays(sentences[i], kind)
  }

  method DescriptionSurvivors(sentences: seq<seq<Token>>, maskOrder: seq<Phrase>, qualifiedOrder: seq<Entry<EmploymentType>>,
                              bareOrder: seq<Entry<EmploymentType>>) returns (survivors: set<EmploymentType>)
    requires Elements(maskOrder) == Mask() && LongestFirst(maskOrder)
    requires Elements(qualifiedOrder) == Qualified() && Elements(bareOrder) == Bare()
    ensures forall kind :: kind in survivors <==> DescriptionSays(sentences, kind)
  {
    hide SentenceSays, Qualified, Bare, Mask, LongestFirst;
    survivors := {};
    for n := 0 to |sentences|
      invariant forall kind :: kind in survivors <==> exists i :: 0 <= i < n && SentenceSays(sentences[i], kind)
    {
      var more := SentenceSurvivors(sentences[n], maskOrder, qualifiedOrder, bareOrder);
      survivors := survivors + more;
    }
  }

  /** The classification is decided by the text alone, whatever order the catalogs are enumerated in: a
      value comes out exactly when some field says it and neither says anything else, inferred exactly when
      the description is silent. */
  method Classify(segments: seq<seq<Token>>, sentences: seq<seq<Token>>, maskOrder: seq<Phrase>,
                  qualifiedOrder: seq<Entry<EmploymentType>>, bareOrder: seq<Entry<EmploymentType>>)
    returns (result: Classified<EmploymentType>)
    requires Elements(maskOrder) == Mask() && LongestFirst(maskOrder)
    requires Elements(qualifiedOrder) == Qualified() && Elements(bareOrder) == Bare()
    ensures forall v :: result.value == Some(v) <==>
      forall kind :: (kind == v <==> TitleSays(segments, kind) || DescriptionSays(sentences, kind))
    ensures result.value.None? <==> result.provenance == Unavailable
    ensures result.provenance == Inferred <==> result.value.Some? && forall kind :: !DescriptionSays(sentences, kind)
  {
    hide TitleSays, DescriptionSays, Combine, SignalFrom, Qualified, Bare, Mask, LongestFirst;
    var title := TitleSurvivors(segments, maskOrder);
    var description := DescriptionSurvivors(sentences, maskOrder, qualifiedOrder, bareOrder);
    var titleSignal := Summarize(title);
    var descriptionSignal := Summarize(description);
    result := Combine(titleSignal, descriptionSignal);
    forall v
      ensures result.value == Some(v) <==> title + description == {v}
    {
      CombineIsUnanimous(titleSignal, descriptionSignal, title, description, v);
    }
    CombineIsUnanimous(titleSignal, descriptionSignal, title, description, FullTime);
    forall v
      ensures title + description == {v} <==>
        forall kind :: (kind == v <==> TitleSays(segments, kind) || DescriptionSays(sentences, kind))
    {
      assert forall kind :: kind in title + description <==> TitleSays(segments, kind) || DescriptionSays(sentences, kind);
      assert title + description == {v} <==> forall kind :: (kind == v <==> kind in title + description);
    }
  }
}
