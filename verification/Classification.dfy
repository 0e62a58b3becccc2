/** What the two evidence classifiers share besides negation: collecting candidates from phrase
    catalogs, and combining what the title and the description say. */
module Classification {
  import opened Options
  import opened Evidence
  import opened Negation

  // One phrase of a catalog with the value it stands for.
  datatype Entry<L> = Entry(phrase: Phrase, kind: L)

  predicate Clear(masked: seq<bool>, start: nat, length: nat) {
    forall i :: start <= i < start + length && i < |masked| ==> !masked[i]
  }

  // An occurrence that meets no masked token.
  predicate OccursClear(tokens: seq<Token>, masked: seq<bool>, phrase: Phrase, at: nat) {
    Occurs(tokens, phrase, at) && Clear(masked, at, |phrase|)
  }

  method FindUnmaskedSpans(tokens: seq<Token>, phrase: Phrase, masked: seq<bool>) returns (spans: seq<Span>)
    ensures forall s :: s in spans <==> OccursClear(tokens, masked, phrase, s.start) && s.end == s.start + |phrase| - 1
  {
    spans := [];
    if |phrase| > |tokens| {
      return;
    }
    for start := 0 to |tokens| - |phrase| + 1
      invariant forall s :: s in spans <==>
        s.start < start && OccursClear(tokens, masked, phrase, s.start) && s.end == s.start + |phrase| - 1
    {
      if Clear(masked, start, |phrase|) && tokens[start..start + |phrase|] == phrase {
        spans := spans + [Span(start, start + |phrase| - 1)];
      }
    }
  }

  /** Every occurrence of every entry, whatever order the entries are taken in. */
  ghost function Candidates<L(!new)>(tokens: seq<Token>, masked: seq<bool>, entries: set<Entry<L>>, qualified: bool): set<Candidate<L>> {
    set i, e | 0 <= i < |tokens| && e in entries && OccursClear(tokens, masked, e.phrase, i)
      :: Candidate(i, i + |e.phrase| - 1, e.kind, qualified)
  }

  // The candidate an entry's occurrence at a position gives.
  function At<L>(e: Entry<L>, i: nat, qualified: bool): Candidate<L> {
    Candidate(i, i + |e.phrase| - 1, e.kind, qualified)
  }

  lemma CandidatesPlaced<L(!new)>(tokens: seq<Token>, masked: seq<bool>, entries: set<Entry<L>>, qualified: bool)
    ensures AllPlaced(tokens, Candidates(tokens, masked, entries, qualified))
  {
  }

  lemma CandidatesUnion<L(!new)>(tokens: seq<Token>, masked: seq<bool>, a: set<Entry<L>>, b: set<Entry<L>>, qualified: bool)
    ensures Candidates(tokens, masked, a + b, qualified)
         == Candidates(tokens, masked, a, qualified) + Candidates(tokens, masked, b, qualified)
  {
    hide OccursClear;
    forall c | c in Candidates(tokens, masked, a + b, qualified)
      ensures c in Candidates(tokens, masked, a, qualified) + Candidates(tokens, masked, b, qualified)
    {
      var i, e :| 0 <= i < |tokens| && e in a + b && OccursClear(tokens, masked, e.phrase, i) && c == At(e, i, qualified);
      assert e in a || e in b;
    }
    forall c | c in Candidates(tokens, masked, a, qualified) + Candidates(tokens, masked, b, qualified)
      ensures c in Candidates(tokens, masked, a + b, qualified)
    {
      var i, e :| 0 <= i < |tokens| && e in a + b && OccursClear(tokens, masked, e.phrase, i) && c == At(e, i, qualified);
    }
  }

  /** A candidate is a stretch of unmasked tokens that spells some entry's phrase. */
  lemma CandidatesSpell<L(!new)>(tokens: seq<Token>, masked: seq<bool>, entries: set<Entry<L>>, qualified: bool, c: Candidate<L>)
    ensures c in Candidates(tokens, masked, entries, qualified) <==>
      && c.start <= c.end < |tokens| && c.qualified == qualified
      && (forall i :: c.start <= i <= c.end && i < |masked| ==> !masked[i])
      && exists e :: e in entries && e.phrase == tokens[c.start..c.end + 1] && e.kind == c.kind
  {
    if c in Candidates(tokens, masked, entries, qualified) {
      var i, e :| 0 <= i < |tokens| && e in entries && OccursClear(tokens, masked, e.phrase, i)
        && c == Candidate(i, i + |e.phrase| - 1, e.kind, qualified);
      assert c.start == i && c.end + 1 == i + |e.phrase| && tokens[i..i + |e.phrase|] == e.phrase;
    }
    if c.start <= c.end < |tokens| && (forall i :: c.start <= i <= c.end && i < |masked| ==> !masked[i]) && c.qualified == qualified {
      forall e | e in entries && e.phrase == tokens[c.start..c.end + 1] && e.kind == c.kind
        ensures c in Candidates(tokens, masked, entries, qualified)
      {
        assert OccursClear(tokens, masked, e.phrase, c.start) && c == At(e, c.start, qualified);
      }
    }
  }

  lemma CollectedOne<L(!new)>(tokens: seq<Token>, masked: seq<bool>, e: Entry<L>, qualified: bool, spans: seq<Span>, more: seq<Candidate<L>>)
    requires forall s :: s in spans <==> OccursClear(tokens, masked, e.phrase, s.start) && s.end == s.start + |e.phrase| - 1
    requires |more| == |spans|
    requires forall i :: 0 <= i < |spans| ==> more[i] == Candidate(spans[i].start, spans[i].end, e.kind, qualified)
    ensures Values(more) == Candidates(tokens, masked, {e}, qualified)
  {
    forall c | c in Values(more)
      ensures c in Candidates(tokens, masked, {e}, qualified)
    {
      var k :| 0 <= k < |more| && more[k] == c;
      assert spans[k] in spans;
      assert c == At(e, spans[k].start, qualified);
    }
    forall c | c in Candidates(tokens, masked, {e}, qualified)
      ensures c in Values(more)
    {
      var i :| 0 <= i < |tokens| && OccursClear(tokens, masked, e.phrase, i) && c == At(e, i, qualified);
      assert Span(c.start, c.end) in spans;
      var k :| 0 <= k < |spans| && spans[k] == Span(c.start, c.end);
      assert more[k] == c;
    }
  }

  method Collect<L(!new)>(tokens: seq<Token>, masked: seq<bool>, order: seq<Entry<L>>, qualified: bool) returns (found: seq<Candidate<L>>)
    ensures Values(found) == Candidates(tokens, masked, Elements(order), qualified)
  {
    hide Candidates;
    found := [];
    assert Values(found) == Candidates(tokens, masked, {}, qualified) by {
      NothingCollected<L>(tokens, masked, qualified);
    }
    assert Elements(order[..0]) == {};
    for k := 0 to |order|
      invariant Values(found) == Candidates(tokens, masked, Elements(order[..k]), qualified)
    {
      var spans := FindUnmaskedSpans(tokens, order[k].phrase, masked);
      var more := seq(|spans|, i requires 0 <= i < |spans| => Candidate(spans[i].start, spans[i].end, order[k].kind, qualified));
      CollectedOne(tokens, masked, order[k], qualified, spans, more);
      assert Elements(order[..k + 1]) == Elements(order[..k]) + {order[k]};
      CandidatesUnion(tokens, masked, Elements(order[..k]), {order[k]}, qualified);
      assert Values(found + more) == Values(found) + Values(more);
      found := found + more;
    }
    assert order[..|order|] == order;
  }

  lemma NothingCollected<L(!new)>(tokens: seq<Token>, masked: seq<bool>, qualified: bool)
    ensures Candidates<L>(tokens, masked, {}, qualified) == {}
  {
  }

  // ---------- Combining the two fields ----------

  // What one field says: nothing, one value, or several at once.
  datatype Signal<L> = Silent | Says(value: L) | Contradictory

  ghost predicate SignalFrom<L(!new)>(signal: Signal<L>, survivors: set<L>) {
    match signal
    case Silent => survivors == {}
    case Says(v) => survivors == {v}
    case Contradictory => exists v, w :: v in survivors && w in survivors && v != w
  }

  method Summarize<L(==, !new)>(survivors: set<L>) returns (signal: Signal<L>)
    ensures SignalFrom(signal, survivors)
  {
    if survivors == {} {
      return Silent;
    }
    var v :| v in survivors;
    if survivors == {v} {
      return Says(v);
    }
    assert survivors == {v} + (survivors - {v});
    var w :| w in survivors - {v};
    return Contradictory;
  }

  datatype Provenance = ParsedDescription | Inferred | Unavailable
  datatype Classified<L> = Classified(value: Option<L>, provenance: Provenance)

  function Combine<L(==)>(title: Signal<L>, description: Signal<L>): Classified<L> {
    if title.Contradictory? || description.Contradictory? then Classified(None, Unavailable)
    else if title.Silent? && description.Silent? then Classified(None, Unavailable)
    else if title.Says? && description.Silent? then Classified(Some(title.value), Inferred)
    else if title.Silent? && description.Says? then Classified(Some(description.value), ParsedDescription)
    else if title == description then Classified(Some(title.value), ParsedDescription)
    else Classified(None, Unavailable)
  }

  /** A value comes out exactly when some field's evidence says it and no evidence of either field
      says anything else; it is never missing while a provenance is claimed, and inferred exactly when
      the description says nothing. */
  lemma CombineIsUnanimous<L(!new)>(title: Signal<L>, description: Signal<L>, a: set<L>, b: set<L>, v: L)
    requires SignalFrom(title, a) && SignalFrom(description, b)
    ensures Combine(title, description).value == Some(v) <==> a + b == {v}
    ensures Combine(title, description).value.None? <==> Combine(title, description).provenance == Unavailable
    ensures Combine(title, description).provenance == Inferred <==> Combine(title, description).value.Some? && b == {}
  {
    if a + b == {v} {
      assert forall x :: x in a ==> x in a + b;
      assert forall x :: x in b ==> x in a + b;
      assert v in a + b;
      assert a == {} || a == {v};
      assert b == {} || b == {v};
    }
    if Combine(title, description).value == Some(v) {
      assert a + b == {v};
    }
  }
}
