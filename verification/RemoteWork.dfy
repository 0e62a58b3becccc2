/** The remote/hybrid/onsite classifier over tokenized title segments and description sentences. */
module RemoteWork {
  import opened Options
  import opened Evidence
  import opened Negation
  import opened Classification

  datatype RemoteType = Remote | Hybrid | Onsite

  // What a description phrase stands for; None is the office-attendance blocker, which has no value.
  type Kind = Option<RemoteType>
  type Catalog = set<Entry<Kind>>

  function Phrases(phrases: set<Phrase>, kind: Kind): Catalog {
    set p | p in phrases :: Entry(p, kind)
  }

  function Bare(): Catalog {
    Phrases({["remote"], ["remotely"], ["work", "from", "home"], ["work", "from", "anywhere"], ["wfh"]}, Some(Remote))
    + Phrases({["hybrid"]}, Some(Hybrid))
    + Phrases({["onsite"], ["on", "site"], ["in", "office"], ["in", "person"]}, Some(Onsite))
  }

  // Arrangement phrases that count anywhere in a title.
  function Explicit(): Catalog {
    Phrases({["fully", "remote"], ["100%", "remote"], ["work", "remotely"], ["work", "from", "home"],
             ["work", "from", "anywhere"], ["wfh"]}, Some(Remote))
    + Phrases({["work", "in", "the", "office"]}, Some(Onsite))
  }

  function Nouns(): set<Phrase> {
    {["role"], ["position"], ["job"], ["work", "arrangement"], ["schedule"], ["attendance"], ["attendance", "requirement"]}
  }

  function Arranged(prefix: Phrase): set<Phrase> {
    set noun | noun in Nouns() :: prefix + noun
  }

  function Described(): Catalog {
    Phrases(Arranged(["remote"]), Some(Remote))
    + Phrases({["work", "remotely"], ["work", "from", "home"], ["work", "from", "anywhere"], ["wfh"]}, Some(Remote))
    + Phrases(Arranged(["hybrid"]), Some(Hybrid))
    + Phrases(Arranged(["onsite"]) + Arranged(["on", "site"]), Some(Onsite))
    + Phrases({["work", "in", "the", "office"]}, Some(Onsite))
  }

  function Blockers(): Catalog {
    Phrases({["required", "to", "be", "in", "the", "office"]}, None)
  }

  // Phrases in which the marker words mean something else; nothing is found across them.
  function Exclusions(): set<Phrase> {
    {["remote", "sensing"], ["remote", "desktop"], ["remote", "location"], ["hybrid", "cloud"],
     ["remote", "systems"], ["remote", "team"]}
  }

  const CONTEXT_CUES: set<Token> := {
    "stipend", "collaboration", "vpn", "protocol", "allowance",
    "team", "teams", "system", "systems", "device", "devices", "interview", "meeting", "meetings"}

  const NEGATION_CUES: set<Token> := {"not", "no", "isn't", "aren't", "without", "unavailable"}

  const CONTEXT_WINDOW := 3

  // The nearest candidates on either side bind; nothing may follow a conjunction.
  const BINDING := Binding({}, false)

  // ---------- Masking ----------

  lemma ExclusionsNest()
    ensures Nesting(Exclusions()) && forall p :: p in Exclusions() ==> |p| == 2
  {
    HeadsNest(Exclusions(), {"remote", "hybrid"});
  }

  // A newly masked phrase adds exactly the positions of its occurrences.
  lemma MaskOneMore(tokens: seq<Token>, done: set<Phrase>, phrase: Phrase, masked: seq<bool>, spans: seq<Span>, i: nat)
    requires Nesting(done + {phrase}) && (forall p :: p in done ==> |p| >= |phrase|) && i < |tokens|
    requires |masked| == |tokens| && forall k :: 0 <= k < |tokens| ==> (masked[k] <==> Covered(tokens, done, k))
    requires forall s :: s in spans <==> OccursClear(tokens, masked, phrase, s.start) && s.end == s.start + |phrase| - 1
    ensures Covered(tokens, done + {phrase}, i) <==> masked[i] || exists m :: 0 <= m < |spans| && InSpan(spans[m], i)
  {
    hide Nesting;
    if Covered(tokens, done + {phrase}, i) && !masked[i] {
      var p: Phrase :| p in done + {phrase} && CoveredBy(tokens, p, i);
      assert p == phrase;
      var at :| 0 <= at <= i < at + |p| && Occurs(tokens, p, at);
      var here := [Span(at, at + |p| - 1)];
      forall k | at <= k < at + |p|
        ensures !masked[k]
      {
        if masked[k] {
          AllOrNone(tokens, done, phrase, here, 0, k, i);
        }
      }
      assert here[0] in spans;
      var m :| 0 <= m < |spans| && spans[m] == here[0];
      assert InSpan(spans[m], i);
    }
    if m :| 0 <= m < |spans| && InSpan(spans[m], i) {
      assert spans[m] in spans;
      assert CoveredBy(tokens, phrase, i) && phrase in done + {phrase};
    }
    if masked[i] {
      var p: Phrase :| p in done && CoveredBy(tokens, p, i);
      assert p in done + {phrase};
    }
  }

  /** Phrase by phrase in any order, marking the spans that meet no masked token, masks exactly the
      positions some exclusion phrase covers. */
  method MaskExclusions(tokens: seq<Token>, order: seq<Phrase>) returns (masked: array<bool>)
    requires Elements(order) == Exclusions()
    ensures fresh(masked) && masked[..] == MaskOf(tokens)
  {
    hide Nesting, Covered, Exclusions, OccursClear;
    ExclusionsNest();
    masked := new bool[|tokens|](_ => false);
    NoneCovered(tokens);
    for k := 0 to |order|
      invariant forall i :: 0 <= i < |tokens| ==> (masked[i] <==> Covered(tokens, Elements(order[..k]), i))
    {
      ghost var done, before := Elements(order[..k]), masked[..];
      assert Elements(order[..k + 1]) == done + {order[k]} && order[k] in Elements(order);
      NestingShrinks(Elements(order), done + {order[k]});
      var spans := FindUnmaskedSpans(tokens, order[k], masked[..]);
      for n := 0 to |spans|
        invariant forall i :: 0 <= i < |tokens| ==>
          (masked[i] <==> before[i] || exists m :: 0 <= m < n && InSpan(spans[m], i))
      {
        assert spans[n] in spans;
        SpanFits(tokens, before, order[k], spans[n]);
        for j := spans[n].start to spans[n].end + 1
          invariant forall i :: 0 <= i < |tokens| ==>
            (masked[i] <==> before[i] || spans[n].start <= i < j || exists m :: 0 <= m < n && InSpan(spans[m], i))
        {
          masked[j] := true;
        }
      }
      forall i | 0 <= i < |tokens|
        ensures masked[i] <==> Covered(tokens, done + {order[k]}, i)
      {
        MaskOneMore(tokens, done, order[k], before, spans, i);
      }
    }
    assert order[..|order|] == order;
  }

  lemma SpanFits(tokens: seq<Token>, masked: seq<bool>, phrase: Phrase, s: Span)
    requires OccursClear(tokens, masked, phrase, s.start) && s.end == s.start + |phrase| - 1
    ensures s.end < |tokens|
  {
  }

  ghost function MaskOf(tokens: seq<Token>): (r: seq<bool>)
    ensures |r| == |tokens|
  {
    seq(|tokens|, i requires 0 <= i < |tokens| => Covered(tokens, Exclusions(), i))
  }

  // ---------- Title ----------

  /** A title says a value when an explicit phrase of that value occurs unmasked anywhere in it, or a
      segment, without its masked tokens, is exactly a bare marker. */
  ghost predicate TitleSays(title: seq<Token>, segments: seq<seq<Token>>, kind: RemoteType) {
    (exists e, at: nat :: e in Explicit() && e.kind == Some(kind) && OccursClear(title, MaskOf(title), e.phrase, at))
    || (exists i :: 0 <= i < |segments| && SegmentSays(segments[i], kind))
  }

  ghost predicate SegmentSays(segment: seq<Token>, kind: RemoteType) {
    exists e :: e in Bare() && e.phrase == Compact(segment, MaskOf(segment)) && e.kind == Some(kind)
  }

  // The unmasked tokens spell the phrase, one after the other.
  ghost predicate SpelledBy(tokens: seq<Token>, places: seq<nat>, phrase: Phrase) {
    && (forall i: nat :: i in places <==> i < |tokens| && !Covered(tokens, Exclusions(), i))
    && (forall j, k :: 0 <= j < k < |places| ==> places[j] < places[k])
    && |places| == |phrase| && forall k :: 0 <= k < |places| ==> places[k] < |tokens| && tokens[places[k]] == phrase[k]
  }

  // The unmasked tokens of such a segment spell a bare marker of the value.
  lemma SegmentSaysExactly(segment: seq<Token>, kind: RemoteType)
    ensures SegmentSays(segment, kind) <==>
      exists phrase: Phrase, places: seq<nat> :: Entry(phrase, Some(kind)) in Bare() && SpelledBy(segment, places, phrase)
  {
    hide Covered, Exclusions, Bare, Compact;
    var masked := MaskOf(segment);
    assert forall i :: 0 <= i < |segment| ==> masked[i] == Covered(segment, Exclusions(), i);
    var places := CompactKeepsExactly(segment, masked);
    if SegmentSays(segment, kind) {
      var e :| e in Bare() && e.phrase == Compact(segment, masked) && e.kind == Some(kind);
      assert e == Entry(e.phrase, Some(kind)) && SpelledBy(segment, places, e.phrase);
    }
    if phrase: Phrase, others: seq<nat> :| Entry(phrase, Some(kind)) in Bare() && SpelledBy(segment, others, phrase) {
      SamePlaces(places, others);
      assert phrase == Compact(segment, masked);
      assert Entry(phrase, Some(kind)).phrase == Compact(segment, masked);
    }
  }

  method ExplicitSurvivors(title: seq<Token>, exclusionOrder: seq<Phrase>, explicitOrder: seq<Entry<Kind>>) returns (survivors: set<Kind>)
    requires Elements(exclusionOrder) == Exclusions() && Elements(explicitOrder) == Explicit()
    ensures forall kind :: kind in survivors <==>
      exists e, at: nat :: e in Explicit() && e.kind == kind && OccursClear(title, MaskOf(title), e.phrase, at)
  {
    hide Exclusions, Explicit, MaskOf, OccursClear;
    var masked := MaskExclusions(title, exclusionOrder);
    survivors := {};
    for n := 0 to |explicitOrder|
      invariant masked[..] == MaskOf(title)
      invariant forall kind :: kind in survivors <==>
        exists k, at: nat :: 0 <= k < n && explicitOrder[k].kind == kind && OccursClear(title, MaskOf(title), explicitOrder[k].phrase, at)
    {
      var spans := FindUnmaskedSpans(title, explicitOrder[n].phrase, masked[..]);
      SomeSpan(title, MaskOf(title), explicitOrder[n].phrase, spans);
      if spans != [] {
        survivors := survivors + {explicitOrder[n].kind};
      }
    }
    forall e
      ensures e in Explicit() <==> exists k :: 0 <= k < |explicitOrder| && explicitOrder[k] == e
    {
      assert e in Explicit() <==> e in Elements(explicitOrder);
    }
  }

  lemma SomeSpan(tokens: seq<Token>, masked: seq<bool>, phrase: Phrase, spans: seq<Span>)
    requires forall s :: s in spans <==> OccursClear(tokens, masked, phrase, s.start) && s.end == s.start + |phrase| - 1
    ensures spans != [] <==> exists at: nat :: OccursClear(tokens, masked, phrase, at)
  {
    hide OccursClear;
    if at: nat :| OccursClear(tokens, masked, phrase, at) {
      assert Span(at, at + |phrase| - 1) in spans;
    }
    if spans != [] {
      assert spans[0] in spans;
    }
  }

  method SegmentSurvivors(segments: seq<seq<Token>>, exclusionOrder: seq<Phrase>) returns (survivors: set<Kind>)
    requires Elements(exclusionOrder) == Exclusions()
    ensures forall kind :: Some(kind) in survivors <==> exists i :: 0 <= i < |segments| && SegmentSays(segments[i], kind)
  {
    hide Exclusions, MaskOf, Compact, Bare;
    survivors := {};
    for n := 0 to |segments|
      invariant forall kind :: Some(kind) in survivors <==> exists i :: 0 <= i < n && SegmentSays(segments[i], kind)
    {
      var masked := MaskExclusions(segments[n], exclusionOrder);
      var unmasked := Compact(segments[n], masked[..]);
      survivors := survivors + (set e | e in Bare() && e.phrase == unmasked :: e.kind);
    }
  }

  // ---------- Description ----------

  // Whether the raw text from one token's end to another's start is exactly one comma.
  type Commas = (nat, nat) -> bool

  predicate CommaBetween(commas: Commas, c: Candidate<Kind>, o: Candidate<Kind>) {
    if o.start > c.end then commas(c.end, o.start) else if c.start > o.end then commas(o.end, c.start) else false
  }

  ghost function AllCandidates(tokens: seq<Token>): set<Candidate<Kind>> {
    Candidates(tokens, MaskOf(tokens), Described(), true) + Candidates(tokens, MaskOf(tokens), Blockers(), true)
    + Candidates(tokens, MaskOf(tokens), Bare(), false)
  }

  function Cues(tokens: seq<Token>, masked: seq<bool>, cues: set<Token>, upTo: nat): (r: seq<nat>)
    requires upTo <= |tokens| == |masked|
    ensures forall i :: i in r <==> 0 <= i < upTo && !masked[i] && tokens[i] in cues
  {
    if upTo == 0 then []
    else Cues(tokens, masked, cues, upTo - 1) + (if !masked[upTo - 1] && tokens[upTo - 1] in cues then [upTo - 1] else [])
  }

  ghost function CuesOf(tokens: seq<Token>, cues: set<Token>): set<nat> {
    Elements(Cues(tokens, MaskOf(tokens), cues, |tokens|))
  }

  predicate NearCue(positions: set<nat>, c: Candidate<Kind>) {
    exists p :: p in positions && From(p, c) <= CONTEXT_WINDOW
  }

  lemma AllPlacedHere(tokens: seq<Token>)
    ensures AllPlaced(tokens, AllCandidates(tokens))
  {
    hide Candidates, Described, Blockers, Bare, MaskOf;
    CandidatesPlaced(tokens, MaskOf(tokens), Described(), true);
    CandidatesPlaced(tokens, MaskOf(tokens), Blockers(), true);
    CandidatesPlaced(tokens, MaskOf(tokens), Bare(), false);
  }

  // A candidate that counts: neither struck nor near a context cue, and either an arrangement phrase
  // or set against a struck candidate by a bare comma.
  ghost predicate Counts(tokens: seq<Token>, commas: Commas, all: set<Candidate<Kind>>, negators: set<nat>, contexts: set<nat>,
                         c: Candidate<Kind>)
    requires AllPlaced(tokens, all)
  {
    && c in all && !Struck(BINDING, tokens, all, negators, c) && !NearCue(contexts, c)
    && (c.qualified || Contrasted(tokens, commas, all, negators, c))
  }

  ghost predicate Contrasted(tokens: seq<Token>, commas: Commas, all: set<Candidate<Kind>>, negators: set<nat>, c: Candidate<Kind>)
    requires AllPlaced(tokens, all)
  {
    exists o :: o in all && Struck(BINDING, tokens, all, negators, o) && CommaBetween(commas, c, o)
  }

  /** A sentence says a kind when no negator in it is left unresolved and some candidate of that kind counts. */
  ghost predicate SentenceSays(tokens: seq<Token>, commas: Commas, kind: Kind) {
    var all, negators, contexts := AllCandidates(tokens), CuesOf(tokens, NEGATION_CUES), CuesOf(tokens, CONTEXT_CUES);
    AllPlacedHere(tokens);
    !Unresolved(all, negators) && exists c: Candidate<Kind> :: c.kind == kind && Counts(tokens, commas, all, negators, contexts, c)
  }

  // ---------- What a sentence says, token by token ----------

  // Unmasked tokens that spell an arrangement phrase, the blocker, or a bare marker.
  ghost predicate Spells(tokens: seq<Token>, c: Candidate<Kind>) {
    && c.start <= c.end < |tokens| && (forall i :: c.start <= i <= c.end ==> !Covered(tokens, Exclusions(), i))
    && Entry(tokens[c.start..c.end + 1], c.kind) in (if c.qualified then Described() + Blockers() else Bare())
  }

  ghost predicate IsCue(tokens: seq<Token>, cues: set<Token>, n: nat) {
    n < |tokens| && !Covered(tokens, Exclusions(), n) && tokens[n] in cues
  }

  lemma CandidatesAreSpelled(tokens: seq<Token>, c: Candidate<Kind>)
    ensures c in AllCandidates(tokens) <==> Spells(tokens, c)
  {
    hide Candidates, Described, Bare, Blockers, Covered, Exclusions;
    CandidatesSpell(tokens, MaskOf(tokens), Described(), true, c);
    CandidatesSpell(tokens, MaskOf(tokens), Blockers(), true, c);
    CandidatesSpell(tokens, MaskOf(tokens), Bare(), false, c);
    if c.start <= c.end < |tokens| {
      var phrase := tokens[c.start..c.end + 1];
      var mask := MaskOf(tokens);
      assert forall i :: 0 <= i < |tokens| ==> mask[i] == Covered(tokens, Exclusions(), i);
      assert (forall i :: c.start <= i <= c.end && i < |mask| ==> !mask[i]) <==>
        (forall i :: c.start <= i <= c.end ==> !Covered(tokens, Exclusions(), i)) by {
        if forall i :: c.start <= i <= c.end && i < |mask| ==> !mask[i] {
          forall i | c.start <= i <= c.end
            ensures !Covered(tokens, Exclusions(), i)
          {
            assert !mask[i];
          }
        }
      }
      assert forall e: Entry<Kind> :: e.phrase == phrase && e.kind == c.kind <==> e == Entry(phrase, c.kind);
    }
  }

  lemma AllSpelled(tokens: seq<Token>)
    ensures forall c :: c in AllCandidates(tokens) <==> Spells(tokens, c)
    ensures AllOrdered(AllCandidates(tokens))
  {
    hide AllCandidates, Described, Bare, Blockers, Covered, Exclusions;
    forall c
      ensures c in AllCandidates(tokens) <==> Spells(tokens, c)
    {
      CandidatesAreSpelled(tokens, c);
    }
  }

  lemma CuesAre(tokens: seq<Token>, cues: set<Token>)
    ensures forall n: nat :: n in CuesOf(tokens, cues) <==> IsCue(tokens, cues, n)
  {
    hide Covered, Exclusions;
  }

  // Every negator has a phrase within three tokens; or there is none at all.
  ghost predicate AllNegatorsBind(tokens: seq<Token>) {
    forall n: nat, d :: IsCue(tokens, NEGATION_CUES, n) && Spells(tokens, d) ==>
      exists c: Candidate<Kind> :: Spells(tokens, c) && InReach(n, c)
  }

  // A set that holds whatever a negator binds and whatever is coordinated with a member.
  ghost predicate Withdrawn(tokens: seq<Token>, s: set<Candidate<Kind>>) {
    AllPlacedHere(tokens);
    Bound(BINDING, tokens, AllCandidates(tokens), CuesOf(tokens, NEGATION_CUES), s)
  }

  ghost predicate Escapes(tokens: seq<Token>, c: Candidate<Kind>) {
    exists s: set<Candidate<Kind>> :: Withdrawn(tokens, s) && c !in s
  }

  // Some token of the phrase is within three of a word of another context.
  ghost predicate InOtherContext(tokens: seq<Token>, c: Candidate<Kind>) {
    exists n: nat, p: nat :: IsCue(tokens, CONTEXT_CUES, n) && Takes(c, p) && Apart(n, p) <= CONTEXT_WINDOW
  }

  // Set off by a bare comma from a phrase that negation withdraws.
  ghost predicate SetOff(tokens: seq<Token>, commas: Commas, c: Candidate<Kind>) {
    exists o :: Spells(tokens, o) && !Escapes(tokens, o)
      && ((o.start > c.end && commas(c.end, o.start)) || (c.start > o.end && commas(o.end, c.start)))
  }

  lemma NearCueMeans(tokens: seq<Token>, c: Candidate<Kind>)
    requires Ordered(c)
    ensures NearCue(CuesOf(tokens, CONTEXT_CUES), c) <==> InOtherContext(tokens, c)
  {
    CuesAre(tokens, CONTEXT_CUES);
    hide Covered, Exclusions, CuesOf, IsCue, Distance;
    forall n: nat
      ensures From(n, c) <= CONTEXT_WINDOW <==> exists p: nat :: Takes(c, p) && Apart(n, p) <= CONTEXT_WINDOW
    {
      DistanceIsToTheNearest(n, c.start, c.end);
    }
  }

  lemma UnresolvedHere(tokens: seq<Token>)
    ensures Unresolved(AllCandidates(tokens), CuesOf(tokens, NEGATION_CUES)) <==> !AllNegatorsBind(tokens)
  {
    var all, negators := AllCandidates(tokens), CuesOf(tokens, NEGATION_CUES);
    AllSpelled(tokens);
    UnresolvedMeans(all, negators);
    CuesAre(tokens, NEGATION_CUES);
    hide AllCandidates, Spells, InReach, Unresolved, CuesOf, IsCue;
    if !AllNegatorsBind(tokens) {
      var n: nat, d :| IsCue(tokens, NEGATION_CUES, n) && Spells(tokens, d)
        && !exists c: Candidate<Kind> :: Spells(tokens, c) && InReach(n, c);
      assert d in all && n in negators;
    }
    if all != {} && exists n :: n in negators && forall c :: c in all ==> !InReach(n, c) {
      var n :| n in negators && forall c :: c in all ==> !InReach(n, c);
      var d :| d in all;
      assert Spells(tokens, d) && IsCue(tokens, NEGATION_CUES, n);
    }
  }

  lemma StruckNeverEscapes(tokens: seq<Token>, c: Candidate<Kind>)
    requires Spells(tokens, c)
    ensures AllPlaced(tokens, AllCandidates(tokens))
    ensures Struck(BINDING, tokens, AllCandidates(tokens), CuesOf(tokens, NEGATION_CUES), c) <==> !Escapes(tokens, c)
  {
    AllPlacedHere(tokens);
    AllSpelled(tokens);
    hide AllCandidates, Spells, CuesOf, Struck, Bound;
    StruckExactly(BINDING, tokens, AllCandidates(tokens), CuesOf(tokens, NEGATION_CUES), c);
  }

  // What counts, of the phrases a sentence spells.
  ghost predicate Stands(tokens: seq<Token>, commas: Commas, c: Candidate<Kind>) {
    Spells(tokens, c) && Escapes(tokens, c) && !InOtherContext(tokens, c) && (c.qualified || SetOff(tokens, commas, c))
  }

  lemma CountsStands(tokens: seq<Token>, commas: Commas, c: Candidate<Kind>)
    ensures AllPlaced(tokens, AllCandidates(tokens))
    ensures Counts(tokens, commas, AllCandidates(tokens), CuesOf(tokens, NEGATION_CUES), CuesOf(tokens, CONTEXT_CUES), c)
      <==> Stands(tokens, commas, c)
  {
    AllPlacedHere(tokens);
    AllSpelled(tokens);
    var all, negators := AllCandidates(tokens), CuesOf(tokens, NEGATION_CUES);
    hide AllCandidates, Spells, CuesOf, Struck, Escapes, NearCue, InOtherContext;
    forall o | o in all
      ensures Struck(BINDING, tokens, all, negators, o) <==> !Escapes(tokens, o)
    {
      StruckNeverEscapes(tokens, o);
    }
    if c in all {
      assert Ordered(c);
      NearCueMeans(tokens, c);
      if SetOff(tokens, commas, c) {
        var o :| Spells(tokens, o) && !Escapes(tokens, o)
          && ((o.start > c.end && commas(c.end, o.start)) || (c.start > o.end && commas(o.end, c.start)));
        assert Ordered(o) && CommaBetween(commas, c, o);
      }
      if Contrasted(tokens, commas, all, negators, c) {
        var o :| o in all && Struck(BINDING, tokens, all, negators, o) && CommaBetween(commas, c, o);
        assert Spells(tokens, o);
      }
    }
  }

  /** What a sentence says: every negator binds some phrase, and a phrase of the kind stands: it escapes
      some set that holds all that negators bind and all that is coordinated with a member, no word of
      another context is within three tokens of it, and it is an arrangement phrase or set off by a
      bare comma from a withdrawn one. */
  lemma SentenceSaysExactly(tokens: seq<Token>, commas: Commas, kind: Kind)
    ensures SentenceSays(tokens, commas, kind) <==>
      AllNegatorsBind(tokens) && exists c: Candidate<Kind> :: c.kind == kind && Stands(tokens, commas, c)
  {
    AllPlacedHere(tokens);
    UnresolvedHere(tokens);
    hide AllCandidates, CuesOf, Stands, Counts, Unresolved, AllNegatorsBind;
    forall c
      ensures Counts(tokens, commas, AllCandidates(tokens), CuesOf(tokens, NEGATION_CUES), CuesOf(tokens, CONTEXT_CUES), c)
        <==> Stands(tokens, commas, c)
    {
      CountsStands(tokens, commas, c);
    }
  }

  // The context loop: every candidate near some cue is suppressed as well.
  method SuppressNearCues(candidates: seq<Candidate<Kind>>, contexts: seq<nat>, negated: set<nat>) returns (suppressed: set<nat>)
    ensures forall i :: 0 <= i < |candidates| ==>
      (i in suppressed <==> i in negated || NearCue(Elements(contexts), candidates[i]))
  {
    suppressed := negated;
    for k := 0 to |contexts|
      invariant forall i :: 0 <= i < |candidates| ==>
        (i in suppressed <==> i in negated || NearCue(Elements(contexts[..k]), candidates[i]))
    {
      assert Elements(contexts[..k + 1]) == Elements(contexts[..k]) + {contexts[k]};
      ghost var before := suppressed;
      for i := 0 to |candidates|
        invariant forall j :: 0 <= j < |candidates| ==>
          (j in suppressed <==> j in before || (j < i && From(contexts[k], candidates[j]) <= CONTEXT_WINDOW))
      {
        if From(contexts[k], candidates[i]) <= CONTEXT_WINDOW {
          suppressed := suppressed + {i};
        }
      }
    }
    assert contexts[..|contexts|] == contexts;
  }

  predicate IsCommaContrast(i: nat, candidates: seq<Candidate<Kind>>, negated: set<nat>, commas: Commas)
    requires i < |candidates| && forall o :: o in negated ==> o < |candidates|
  {
    exists o :: o in negated && o != i && CommaBetween(commas, candidates[i], candidates[o])
  }

  // The last loop's test on one position.
  predicate PositionCounts(i: nat, candidates: seq<Candidate<Kind>>, negated: set<nat>, suppressed: set<nat>, commas: Commas)
    requires i < |candidates| && forall o :: o in negated ==> o < |candidates|
  {
    i !in suppressed && (candidates[i].qualified || IsCommaContrast(i, candidates, negated, commas))
  }

  method CountingKinds(candidates: seq<Candidate<Kind>>, negated: set<nat>, suppressed: set<nat>, commas: Commas) returns (kinds: set<Kind>)
    requires forall o :: o in negated ==> o < |candidates|
    ensures forall kind :: kind in kinds <==>
      exists i :: 0 <= i < |candidates| && candidates[i].kind == kind && PositionCounts(i, candidates, negated, suppressed, commas)
  {
    hide IsCommaContrast, PositionCounts;
    kinds := {};
    for n := 0 to |candidates|
      invariant forall kind :: kind in kinds <==>
        exists i :: 0 <= i < n && candidates[i].kind == kind && PositionCounts(i, candidates, negated, suppressed, commas)
    {
      if PositionCounts(n, candidates, negated, suppressed, commas) {
        kinds := kinds + {candidates[n].kind};
      }
    }
  }

  // Positions and values agree on what counts.
  lemma PositionIsValue(tokens: seq<Token>, commas: Commas, candidates: seq<Candidate<Kind>>, negators: set<nat>, contexts: set<nat>,
                        negated: set<nat>, suppressed: set<nat>, i: nat)
    requires AllPlaced(tokens, Values(candidates)) && i < |candidates|
    requires forall o :: o in negated ==> o < |candidates|
    requires forall k :: 0 <= k < |candidates| ==>
      (k in negated <==> Struck(BINDING, tokens, Values(candidates), negators, candidates[k]))
    requires forall k :: 0 <= k < |candidates| ==> (k in suppressed <==> k in negated || NearCue(contexts, candidates[k]))
    ensures PositionCounts(i, candidates, negated, suppressed, commas)
      <==> Counts(tokens, commas, Values(candidates), negators, contexts, candidates[i])
  {
    hide Struck, NearCue;
    assert candidates[i] in Values(candidates);
    if IsCommaContrast(i, candidates, negated, commas) {
      var o :| o in negated && o != i && CommaBetween(commas, candidates[i], candidates[o]);
      assert candidates[o] in Values(candidates);
    }
    if Contrasted(tokens, commas, Values(candidates), negators, candidates[i]) {
      var all := Values(candidates);
      var o :| o in all && Struck(BINDING, tokens, all, negators, o) && CommaBetween(commas, candidates[i], o);
      var k :| 0 <= k < |candidates| && candidates[k] == o;
      assert WellPlaced(tokens, candidates[i]);
      assert k in negated && k != i;
    }
  }

  method SentenceKinds(tokens: seq<Token>, commas: Commas, exclusionOrder: seq<Phrase>, describedOrder: seq<Entry<Kind>>,
                       blockerOrder: seq<Entry<Kind>>, bareOrder: seq<Entry<Kind>>) returns (kinds: set<Kind>)
    requires Elements(exclusionOrder) == Exclusions() && Elements(describedOrder) == Described()
    requires Elements(blockerOrder) == Blockers() && Elements(bareOrder) == Bare()
    ensures forall kind :: kind in kinds <==> SentenceSays(tokens, commas, kind)
  {
    hide Exclusions, Described, Blockers, Bare, MaskOf, Candidates, Struck, Unresolved, NearCue, PositionCounts, Counts, Cues;
    var masked := MaskExclusions(tokens, exclusionOrder);
    ghost var mask := masked[..];
    var described := Collect(tokens, masked[..], describedOrder, true);
    var blockers := Collect(tokens, masked[..], blockerOrder, true);
    var bare := Collect(tokens, masked[..], bareOrder, false);
    var candidates := described + blockers + bare;
    assert Values(candidates) == AllCandidates(tokens);
    AllPlacedHere(tokens);
    var negators := Cues(tokens, masked[..], NEGATION_CUES, |tokens|);
    var contexts := Cues(tokens, masked[..], CONTEXT_CUES, |tokens|);
    var negated, unresolved := Suppress(BINDING, tokens, candidates, negators);
    var suppressed := SuppressNearCues(candidates, contexts, negated);
    kinds := {};
    if !unresolved {
      kinds := CountingKinds(candidates, negated, suppressed, commas);
      KindsAreValues(tokens, commas, candidates, Elements(negators), Elements(contexts), negated, suppressed, kinds);
    }
  }

  lemma KindsAreValues(tokens: seq<Token>, commas: Commas, candidates: seq<Candidate<Kind>>, negators: set<nat>, contexts: set<nat>,
                       negated: set<nat>, suppressed: set<nat>, kinds: set<Kind>)
    requires AllPlaced(tokens, Values(candidates)) && forall o :: o in negated ==> o < |candidates|
    requires forall k :: 0 <= k < |candidates| ==>
      (k in negated <==> Struck(BINDING, tokens, Values(candidates), negators, candidates[k]))
    requires forall k :: 0 <= k < |candidates| ==> (k in suppressed <==> k in negated || NearCue(contexts, candidates[k]))
    requires forall kind :: kind in kinds <==>
      exists i :: 0 <= i < |candidates| && candidates[i].kind == kind && PositionCounts(i, candidates, negated, suppressed, commas)
    ensures forall kind :: kind in kinds <==>
      exists c: Candidate<Kind> :: c.kind == kind && Counts(tokens, commas, Values(candidates), negators, contexts, c)
  {
    hide Struck, NearCue, PositionCounts, Counts;
    forall i | 0 <= i < |candidates|
      ensures PositionCounts(i, candidates, negated, suppressed, commas)
        <==> Counts(tokens, commas, Values(candidates), negators, contexts, candidates[i])
    {
      PositionIsValue(tokens, commas, candidates, negators, contexts, negated, suppressed, i);
    }
    forall c: Candidate<Kind> | Counts(tokens, commas, Values(candidates), negators, contexts, c)
      ensures exists i :: 0 <= i < |candidates| && candidates[i] == c
    {
      CountsIsCandidate(tokens, commas, Values(candidates), negators, contexts, c);
    }
  }

  lemma CountsIsCandidate(tokens: seq<Token>, commas: Commas, all: set<Candidate<Kind>>, negators: set<nat>, contexts: set<nat>,
                          c: Candidate<Kind>)
    requires AllPlaced(tokens, all) && Counts(tokens, commas, all, negators, contexts, c)
    ensures c in all
  {
    hide Struck, NearCue;
  }

  // ---------- Both fields ----------

  datatype Sentence = Sentence(tokens: seq<Token>, commas: Commas)

  ghost predicate DescriptionSays(sentences: seq<Sentence>, kind: Kind) {
    exists i :: 0 <= i < |sentences| && SentenceSays(sentences[i].tokens, sentences[i].commas, kind)
  }

  method DescriptionKinds(sentences: seq<Sentence>, exclusionOrder: seq<Phrase>, describedOrder: seq<Entry<Kind>>,
                          blockerOrder: seq<Entry<Kind>>, bareOrder: seq<Entry<Kind>>) returns (kinds: set<Kind>)
    requires Elements(exclusionOrder) == Exclusions() && Elements(describedOrder) == Described()
    requires Elements(blockerOrder) == Blockers() && Elements(bareOrder) == Bare()
    ensures forall kind :: kind in kinds <==> DescriptionSays(sentences, kind)
  {
    hide SentenceSays, Exclusions, Described, Blockers, Bare;
    kinds := {};
    for n := 0 to |sentences|
      invariant forall kind :: kind in kinds <==>
        exists i :: 0 <= i < n && SentenceSays(sentences[i].tokens, sentences[i].commas, kind)
    {
      var more := SentenceKinds(sentences[n].tokens, sentences[n].commas, exclusionOrder, describedOrder, blockerOrder, bareOrder);
      kinds := kinds + more;
    }
  }

  function ValuesAmong(kinds: set<Kind>): (r: set<RemoteType>)
    ensures forall v :: v in r <==> Some(v) in kinds
  {
    set k | k in kinds && k.Some? :: k.value
  }

  // The blocker only ever withdraws a result of remote.
  function Block(result: Classified<RemoteType>, blocked: bool): Classified<RemoteType> {
    if blocked && result.value == Some(Remote) then Classified(None, Unavailable) else result
  }

  /** The classification is decided by the text alone, whatever order the catalogs are enumerated in: a
      value comes out exactly when some field says it, neither says anything else, and it is not
      remote against an office-attendance requirement. */
  method Classify(title: seq<Token>, segments: seq<seq<Token>>, sentences: seq<Sentence>, exclusionOrder: seq<Phrase>,
                  explicitOrder: seq<Entry<Kind>>, describedOrder: seq<Entry<Kind>>, blockerOrder: seq<Entry<Kind>>,
                  bareOrder: seq<Entry<Kind>>)
    returns (result: Classified<RemoteType>)
    requires Elements(exclusionOrder) == Exclusions() && Elements(explicitOrder) == Explicit()
    requires Elements(describedOrder) == Described() && Elements(blockerOrder) == Blockers() && Elements(bareOrder) == Bare()
    ensures forall v :: result.value == Some(v) <==>
      (forall w :: (w == v <==> TitleSays(title, segments, w) || DescriptionSays(sentences, Some(w))))
      && !(v == Remote && DescriptionSays(sentences, None))
    ensures result.value.None? <==> result.provenance == Unavailable
    ensures result.provenance == Inferred <==> result.value.Some? && forall w :: !DescriptionSays(sentences, Some(w))
  {
    hide SentenceSays, SegmentSays, DescriptionSays, OccursClear, MaskOf, Exclusions, Explicit, Described, Blockers, Bare, Combine, SignalFrom;
    var explicit := ExplicitSurvivors(title, exclusionOrder, explicitOrder);
    var marked := SegmentSurvivors(segments, exclusionOrder);
    var described := DescriptionKinds(sentences, exclusionOrder, describedOrder, blockerOrder, bareOrder);
    var a, b := ValuesAmong(explicit + marked), ValuesAmong(described);
    var titleSignal := Summarize(a);
    var descriptionSignal := Summarize(b);
    var combined := Combine(titleSignal, descriptionSignal);
    result := Block(combined, None in described);
    CombineIsUnanimous(titleSignal, descriptionSignal, a, b, Remote);
    forall v
      ensures combined.value == Some(v) <==> forall w :: (w == v <==> TitleSays(title, segments, w) || DescriptionSays(sentences, Some(w)))
    {
      CombineIsUnanimous(titleSignal, descriptionSignal, a, b, v);
      assert forall w :: w in a + b <==> TitleSays(title, segments, w) || DescriptionSays(sentences, Some(w));
      assert a + b == {v} <==> forall w :: (w == v <==> w in a + b);
    }
  }
}
