/** Phrase search, masking and negation over token sequences, shared by the two classifiers.  Every
    catalog is a set with no enumeration order of its own; each method takes the order it happens to
    be enumerated in, and its contract does not mention that order. */
module Evidence {
  type Token = string
  type Phrase = p: seq<Token> | |p| > 0 witness [""]

  datatype Span = Span(start: nat, end: nat)  // inclusive

  // ---------- Phrase search ----------

  predicate Occurs(tokens: seq<Token>, phrase: Phrase, at: nat) {
    at + |phrase| <= |tokens| && tokens[at..at + |phrase|] == phrase
  }

  method FindSpans(tokens: seq<Token>, phrase: Phrase) returns (spans: seq<Span>)
    ensures forall s :: s in spans <==> Occurs(tokens, phrase, s.start) && s.end == s.start + |phrase| - 1
    ensures forall i, j :: 0 <= i < j < |spans| ==> spans[i].start < spans[j].start
  {
    spans := [];
    if |phrase| > |tokens| {
      return;
    }
    for start := 0 to |tokens| - |phrase| + 1
      invariant forall s :: s in spans <==>
        s.start < start && Occurs(tokens, phrase, s.start) && s.end == s.start + |phrase| - 1
      invariant forall i, j :: 0 <= i < j < |spans| ==> spans[i].start < spans[j].start
      invariant forall i :: 0 <= i < |spans| ==> spans[i] in spans
    {
      if tokens[start..start + |phrase|] == phrase {
        spans := spans + [Span(start, start + |phrase| - 1)];
      }
    }
  }

  // ---------- Masking ----------

  predicate CoveredBy(tokens: seq<Token>, phrase: Phrase, i: nat) {
    exists at :: 0 <= at <= i < at + |phrase| && Occurs(tokens, phrase, at)
  }

  // Some occurrence of some phrase covers the position.
  ghost predicate Covered(tokens: seq<Token>, phrases: set<Phrase>, i: nat) {
    exists p :: p in phrases && CoveredBy(tokens, p, i)
  }

  predicate Overlap(p: Phrase, at: nat, q: Phrase, at': nat) {
    at < at' + |q| && at' < at + |p|
  }

  predicate Within(p: Phrase, at: nat, q: Phrase, at': nat) {
    at' <= at && at + |p| <= at' + |q|
  }

  /** Two occurrences of catalog phrases never overlap unless the shorter lies inside the longer. */
  ghost predicate Nesting(phrases: set<Phrase>) {
    forall tokens: seq<Token>, p, q, at, at' | p in phrases && q in phrases && |p| <= |q| ::
      Occurs(tokens, p, at) && Occurs(tokens, q, at') && Overlap(p, at, q, at') ==> Within(p, at, q, at')
  }

  predicate LongestFirst(order: seq<Phrase>) {
    forall i, j :: 0 <= i < j < |order| ==> |order[i]| >= |order[j]|
  }

  ghost function Elements<T>(order: seq<T>): set<T> {
    set x | x in order
  }

  predicate InSpan(span: Span, i: nat) {
    span.start <= i <= span.end
  }

  // Covered by a phrase already done, or by one of the current phrase's first `n` spans.
  ghost predicate Marked(tokens: seq<Token>, done: set<Phrase>, spans: seq<Span>, n: nat, i: nat) {
    Covered(tokens, done, i) || exists m :: 0 <= m < n && m < |spans| && InSpan(spans[m], i)
  }

  predicate SpansOf(tokens: seq<Token>, phrase: Phrase, spans: seq<Span>) {
    forall k :: 0 <= k < |spans| ==>
      Occurs(tokens, phrase, spans[k].start) && spans[k].end == spans[k].start + |phrase| - 1
  }

  // A span with one marked position is marked entirely: skipping it loses nothing.
  lemma AllOrNone(tokens: seq<Token>, done: set<Phrase>, phrase: Phrase, spans: seq<Span>, n: nat, i: nat, j: nat)
    requires Nesting(done + {phrase}) && forall p :: p in done ==> |p| >= |phrase|
    requires SpansOf(tokens, phrase, spans) && n < |spans|
    requires InSpan(spans[n], i) && InSpan(spans[n], j) && Marked(tokens, done, spans, n, i)
    ensures Marked(tokens, done, spans, n, j)
  {
    if Covered(tokens, done, i) {
      var p: Phrase :| p in done && CoveredBy(tokens, p, i);
      var at :| 0 <= at <= i < at + |p| && Occurs(tokens, p, at);
      assert phrase in done + {phrase} && p in done + {phrase};
      assert Overlap(phrase, spans[n].start, p, at);
      assert CoveredBy(tokens, p, j);
    } else {
      var m :| 0 <= m < n && InSpan(spans[m], i);
      assert phrase in done + {phrase};
      assert Overlap(phrase, spans[n].start, phrase, spans[m].start);
      assert InSpan(spans[m], j);
    }
  }

  lemma MarkedAll(tokens: seq<Token>, done: set<Phrase>, phrase: Phrase, spans: seq<Span>, i: nat)
    requires SpansOf(tokens, phrase, spans)
    requires forall s: Span :: Occurs(tokens, phrase, s.start) && s.end == s.start + |phrase| - 1 ==> s in spans
    ensures Marked(tokens, done, spans, |spans|, i) <==> Covered(tokens, done + {phrase}, i)
  {
    if Marked(tokens, done, spans, |spans|, i) {
      if Covered(tokens, done, i) {
        var p: Phrase :| p in done && CoveredBy(tokens, p, i);
        assert p in done + {phrase};
      } else {
        var m :| 0 <= m < |spans| && InSpan(spans[m], i);
        assert CoveredBy(tokens, phrase, i) && phrase in done + {phrase};
      }
    }
    if Covered(tokens, done + {phrase}, i) {
      var p: Phrase :| p in done + {phrase} && CoveredBy(tokens, p, i);
      if p == phrase {
        var at :| 0 <= at <= i < at + |p| && Occurs(tokens, p, at);
        assert Span(at, at + |phrase| - 1) in spans && InSpan(Span(at, at + |phrase| - 1), i);
      }
    }
  }

  method MaskPhrase(tokens: seq<Token>, phrase: Phrase, masked: array<bool>, ghost done: set<Phrase>)
    requires Nesting(done + {phrase}) && forall p :: p in done ==> |p| >= |phrase|
    requires masked.Length == |tokens| && forall i :: 0 <= i < |tokens| ==> (masked[i] <==> Covered(tokens, done, i))
    modifies masked
    ensures forall i :: 0 <= i < |tokens| ==> (masked[i] <==> Covered(tokens, done + {phrase}, i))
  {
    hide Covered, Nesting;
    var spans := FindSpans(tokens, phrase);
    for n := 0 to |spans|
      invariant forall i :: 0 <= i < |tokens| ==> (masked[i] <==> Marked(tokens, done, spans, n, i))
    {
      var span := spans[n];
      assert span in spans;
      forall i, j | 0 <= i < |tokens| && 0 <= j < |tokens| && InSpan(span, i) && InSpan(span, j) && masked[i]
        ensures masked[j]
      {
        AllOrNone(tokens, done, phrase, spans, n, i, j);
      }
      if !exists i :: span.start <= i <= span.end && masked[i] {
        for i := span.start to span.end + 1
          invariant forall j :: 0 <= j < |tokens| ==> (masked[j] <==> (span.start <= j < i || Marked(tokens, done, spans, n, j)))
        {
          masked[i] := true;
        }
      }
    }
    forall i | 0 <= i < |tokens|
      ensures Marked(tokens, done, spans, |spans|, i) <==> Covered(tokens, done + {phrase}, i)
    {
      MarkedAll(tokens, done, phrase, spans, i);
    }
  }

  /** Masking longest-first, skipping any span that meets a masked token, masks exactly the covered
      positions, whatever the order among phrases of equal length. */
  method MaskPhrases(tokens: seq<Token>, order: seq<Phrase>) returns (masked: array<bool>)
    requires LongestFirst(order) && Nesting(Elements(order))
    ensures fresh(masked) && masked.Length == |tokens|
    ensures forall i :: 0 <= i < |tokens| ==> (masked[i] <==> Covered(tokens, Elements(order), i))
  {
    hide Nesting, Covered;
    masked := new bool[|tokens|](_ => false);
    NoneCovered(tokens);
    for k := 0 to |order|
      invariant forall i :: 0 <= i < |tokens| ==> (masked[i] <==> Covered(tokens, Elements(order[..k]), i))
    {
      assert Elements(order[..k + 1]) == Elements(order[..k]) + {order[k]};
      NestingShrinks(Elements(order), Elements(order[..k + 1]));
      MaskPhrase(tokens, order[k], masked, Elements(order[..k]));
    }
    assert order[..|order|] == order;
  }

  lemma NoneCovered(tokens: seq<Token>)
    ensures forall i :: !Covered(tokens, Elements([]), i)
  {
  }

  lemma NestingShrinks(all: set<Phrase>, some: set<Phrase>)
    requires Nesting(all) && some <= all
    ensures Nesting(some)
  {
  }

  lemma ReadAt(tokens: seq<Token>, p: Phrase, at: nat, j: nat)
    requires Occurs(tokens, p, at)
    ensures at <= j < at + |p| ==> tokens[j] == p[j - at]
  {
    if at <= j < at + |p| {
      assert tokens[at..at + |p|][j - at] == p[j - at];
    }
  }

  // The unmasked tokens, in order.
  function Compact(tokens: seq<Token>, masked: seq<bool>): (r: seq<Token>)
    requires |masked| == |tokens|
    ensures |r| <= |tokens|
  {
    if tokens == [] then []
    else
      var n := |tokens| - 1;
      Compact(tokens[..n], masked[..n]) + (if masked[n] then [] else [tokens[n]])
  }

  predicate Increasing(a: seq<nat>) {
    forall j, k :: 0 <= j < k < |a| ==> a[j] < a[k]
  }

  ghost predicate SameMembers(a: seq<nat>, b: seq<nat>) {
    forall i: nat :: i in a <==> i in b
  }

  lemma LastOfBoth(a: seq<nat>, b: seq<nat>)
    requires Increasing(a) && Increasing(b) && SameMembers(a, b) && a != []
    ensures b != [] && a[|a| - 1] == b[|b| - 1]
  {
    assert a[|a| - 1] in a && a[|a| - 1] in b;
    assert b[|b| - 1] in b && b[|b| - 1] in a;
  }

  lemma WithoutTheLast(a: seq<nat>, i: nat)
    requires Increasing(a) && a != []
    ensures i in a[..|a| - 1] <==> i in a && i != a[|a| - 1]
  {
    assert a == a[..|a| - 1] + [a[|a| - 1]];
  }

  // Two increasing lists of the same positions are the same.
  lemma {:induction false} SamePlaces(a: seq<nat>, b: seq<nat>)
    requires Increasing(a) && Increasing(b) && SameMembers(a, b)
    ensures a == b
    decreases |a|
  {
    if b != [] {
      LastOfBoth(b, a);
    }
    if a != [] {
      LastOfBoth(a, b);
      var m, n := |a| - 1, |b| - 1;
      forall i: nat
        ensures i in a[..m] <==> i in b[..n]
      {
        WithoutTheLast(a, i);
        WithoutTheLast(b, i);
      }
      SamePlaces(a[..m], b[..n]);
      assert a == a[..m] + [a[m]] && b == b[..n] + [b[n]];
    }
  }

  lemma CompactNext(tokens: seq<Token>, masked: seq<bool>)
    requires |masked| == |tokens|
    ensures tokens == [] ==> Compact(tokens, masked) == []
    ensures tokens != [] ==>
      var n := |tokens| - 1;
      Compact(tokens, masked) == Compact(tokens[..n], masked[..n]) + (if masked[n] then [] else [tokens[n]])
  {
  }

  /** What compacting keeps: exactly the unmasked tokens, at increasing places. */
  lemma {:induction false} CompactKeepsExactly(tokens: seq<Token>, masked: seq<bool>) returns (places: seq<nat>)
    requires |masked| == |tokens|
    ensures |places| == |Compact(tokens, masked)|
    ensures forall k :: 0 <= k < |places| ==> places[k] < |tokens| && Compact(tokens, masked)[k] == tokens[places[k]]
    ensures forall j, k :: 0 <= j < k < |places| ==> places[j] < places[k]
    ensures forall i: nat :: i in places <==> i < |tokens| && !masked[i]
  {
    hide Compact;
    CompactNext(tokens, masked);
    places := [];
    if tokens != [] {
      var n := |tokens| - 1;
      var front := CompactKeepsExactly(tokens[..n], masked[..n]);
      places := if masked[n] then front else front + [n];
      OnePlaceMore(masked, n, front, places);
    }
  }

  lemma OnePlaceMore(masked: seq<bool>, n: nat, front: seq<nat>, places: seq<nat>)
    requires |masked| == n + 1 && places == if masked[n] then front else front + [n]
    requires forall i: nat :: i in front <==> i < n && !masked[..n][i]
    requires forall j, k :: 0 <= j < k < |front| ==> front[j] < front[k]
    ensures forall i: nat :: i in places <==> i < n + 1 && !masked[i]
    ensures forall j, k :: 0 <= j < k < |places| ==> places[j] < places[k]
  {
    assert forall i: nat :: i in places <==> i in front || (!masked[n] && i == n);
    assert forall k :: 0 <= k < |front| ==> front[k] in front;
  }

  /** Phrases nest when their longer ones open with head words that no phrase contains further on. */
  lemma HeadsNest(phrases: set<Phrase>, heads: set<Token>)
    requires forall p :: p in phrases && |p| > 1 ==> p[0] in heads
    requires forall p, i :: p in phrases && 0 < i < |p| ==> p[i] !in heads
    ensures Nesting(phrases)
  {
    forall tokens: seq<Token>, p: Phrase, q: Phrase, at: nat, at': nat | p in phrases && q in phrases && |p| <= |q|
      && Occurs(tokens, p, at) && Occurs(tokens, q, at') && Overlap(p, at, q, at')
      ensures Within(p, at, q, at')
    {
      ReadAt(tokens, p, at, at);
      ReadAt(tokens, q, at', at');
      ReadAt(tokens, p, at, at');
      ReadAt(tokens, q, at', at);
    }
  }
}
