/** Which candidates a sentence's negators strike: the nearest ones, and everything coordinated with
    them by "or" or "nor".  The specification speaks of candidates as values; the worklist runs over
    positions in whatever order they were collected. */
module Negation {
  import opened Evidence

  const NEGATION_WINDOW := 3
  const CONJUNCTIONS: set<Token> := {"or", "nor"}

  datatype Candidate<L> = Candidate(start: nat, end: nat, kind: L, qualified: bool)

  // How a classifier binds a negator: what may follow a conjunction, and whether candidates after
  // the negator come before all others.
  datatype Binding = Binding(determiners: set<Token>, forwardFirst: bool)

  predicate WellPlaced<L>(tokens: seq<Token>, c: Candidate<L>) {
    c.start <= c.end < |tokens|
  }

  function Distance(pivot: nat, start: nat, end: nat): nat {
    if pivot < start then start - pivot else if pivot > end then pivot - end else 0
  }

  // How far apart two positions are.
  function Apart(i: nat, j: nat): nat {
    if i < j then j - i else i - j
  }

  /** The distance to a span is that to its nearest position, on either side of it. */
  lemma DistanceIsToTheNearest(pivot: nat, start: nat, end: nat)
    requires start <= end
    ensures forall i :: start <= i <= end ==> Distance(pivot, start, end) <= Apart(pivot, i)
    ensures exists i :: start <= i <= end && Distance(pivot, start, end) == Apart(pivot, i)
  {
    var nearest := if pivot < start then start else if pivot > end then end else pivot;
    assert Distance(pivot, start, end) == Apart(pivot, nearest);
  }

  function From<L>(pivot: nat, c: Candidate<L>): nat {
    Distance(pivot, c.start, c.end)
  }

  // Exactly one conjunction, or a conjunction and one determiner.
  predicate JoiningGap(b: Binding, gap: seq<Token>) {
    (|gap| == 1 && gap[0] in CONJUNCTIONS)
    || (|gap| == 2 && gap[0] in CONJUNCTIONS && gap[1] in b.determiners)
  }

  predicate Joined<L>(b: Binding, tokens: seq<Token>, x: Candidate<L>, y: Candidate<L>)
    requires WellPlaced(tokens, x) && WellPlaced(tokens, y)
  {
    if y.start > x.end then JoiningGap(b, tokens[x.end + 1..y.start])
    else if x.start > y.end then JoiningGap(b, tokens[y.end + 1..x.start])
    else false
  }

  lemma JoinedSymmetric<L>(b: Binding, tokens: seq<Token>, x: Candidate<L>, y: Candidate<L>)
    requires WellPlaced(tokens, x) && WellPlaced(tokens, y)
    ensures Joined(b, tokens, x, y) <==> Joined(b, tokens, y, x)
  {
  }

  // ---------- The nearest candidates of one negator ----------

  datatype Side = Ahead | NotAhead | Either

  predicate OnSide<L>(side: Side, negator: nat, c: Candidate<L>) {
    match side
    case Ahead => negator < c.start
    case NotAhead => !(negator < c.start)
    case Either => true
  }

  predicate Eligible<L>(side: Side, negator: nat, c: Candidate<L>) {
    OnSide(side, negator, c) && From(negator, c) <= NEGATION_WINDOW
  }

  ghost predicate AllPlaced<L(!new)>(tokens: seq<Token>, all: set<Candidate<L>>) {
    forall c :: c in all ==> WellPlaced(tokens, c)
  }

  ghost predicate NearestOn<L(!new)>(all: set<Candidate<L>>, side: Side, negator: nat, c: Candidate<L>) {
    c in all && Eligible(side, negator, c)
    && forall d :: d in all && Eligible(side, negator, d) ==> From(negator, c) <= From(negator, d)
  }

  ghost predicate NoneEligible<L(!new)>(all: set<Candidate<L>>, side: Side, negator: nat) {
    forall d :: d in all ==> !Eligible(side, negator, d)
  }

  ghost predicate Nearest<L(!new)>(b: Binding, all: set<Candidate<L>>, negator: nat, c: Candidate<L>) {
    if !b.forwardFirst then NearestOn(all, Either, negator, c)
    else if !NoneEligible(all, Ahead, negator) then NearestOn(all, Ahead, negator, c)
    else NearestOn(all, NotAhead, negator, c)
  }

  // ---------- The same, token by token ----------

  // The candidate's span takes in the position.
  predicate Takes<L>(c: Candidate<L>, p: nat) {
    c.start <= p <= c.end
  }

  // Whether a candidate counts as lying on a side of the negator.
  ghost predicate Lies<L>(side: Side, negator: nat, c: Candidate<L>) {
    match side
    case Ahead => forall p: nat :: Takes(c, p) ==> negator < p
    case NotAhead => exists p: nat :: Takes(c, p) && p <= negator
    case Either => true
  }

  // Some token of the candidate is within the window.
  ghost predicate InReach<L>(negator: nat, c: Candidate<L>) {
    exists p: nat :: Takes(c, p) && Apart(negator, p) <= NEGATION_WINDOW
  }

  /** A token of the candidate is within the window, and no token of any candidate on that side is nearer. */
  ghost predicate ClosestOn<L(!new)>(all: set<Candidate<L>>, side: Side, negator: nat, c: Candidate<L>) {
    c in all && Lies(side, negator, c)
    && exists p: nat :: Takes(c, p) && Apart(negator, p) <= NEGATION_WINDOW && NoneNearer(all, side, negator, p)
  }

  ghost predicate NoneNearer<L(!new)>(all: set<Candidate<L>>, side: Side, negator: nat, p: nat) {
    forall d, q: nat :: d in all && Lies(side, negator, d) && Takes(d, q) ==> Apart(negator, p) <= Apart(negator, q)
  }

  predicate Ordered<L>(c: Candidate<L>) {
    c.start <= c.end
  }

  ghost predicate AllOrdered<L(!new)>(all: set<Candidate<L>>) {
    forall c :: c in all ==> Ordered(c)
  }

  lemma EligibleMeans<L>(side: Side, negator: nat, c: Candidate<L>)
    requires Ordered(c)
    ensures Lies(side, negator, c) <==> OnSide(side, negator, c)
    ensures Eligible(side, negator, c) <==> Lies(side, negator, c) && InReach(negator, c)
  {
    assert Takes(c, c.start);
    DistanceIsToTheNearest(negator, c.start, c.end);
  }

  /** The nearest candidates on a side are the closest ones, counted token by token. */
  lemma NearestIsClosest<L(!new)>(all: set<Candidate<L>>, side: Side, negator: nat, c: Candidate<L>)
    requires AllOrdered(all)
    ensures NearestOn(all, side, negator, c) <==> ClosestOn(all, side, negator, c)
  {
    hide Lies, InReach, Eligible;
    if NearestOn(all, side, negator, c) {
      NearestIsClose(all, side, negator, c);
    }
    if ClosestOn(all, side, negator, c) {
      CloseIsNearest(all, side, negator, c);
    }
  }

  lemma NearestIsClose<L(!new)>(all: set<Candidate<L>>, side: Side, negator: nat, c: Candidate<L>)
    requires AllOrdered(all) && NearestOn(all, side, negator, c)
    ensures ClosestOn(all, side, negator, c)
  {
    hide Distance, Lies, InReach;
    EligibleMeans(side, negator, c);
    DistanceIsToTheNearest(negator, c.start, c.end);
    var p :| Takes(c, p) && From(negator, c) == Apart(negator, p);
    forall d, q | d in all && Lies(side, negator, d) && Takes(d, q)
      ensures Apart(negator, p) <= Apart(negator, q)
    {
      EligibleMeans(side, negator, d);
      DistanceIsToTheNearest(negator, d.start, d.end);
    }
    assert NoneNearer(all, side, negator, p);
  }

  lemma CloseIsNearest<L(!new)>(all: set<Candidate<L>>, side: Side, negator: nat, c: Candidate<L>)
    requires AllOrdered(all) && ClosestOn(all, side, negator, c)
    ensures NearestOn(all, side, negator, c)
  {
    hide Distance, Lies, InReach;
    EligibleMeans(side, negator, c);
    DistanceIsToTheNearest(negator, c.start, c.end);
    var p :| Takes(c, p) && Apart(negator, p) <= NEGATION_WINDOW && NoneNearer(all, side, negator, p);
    forall d | d in all && Eligible(side, negator, d)
      ensures From(negator, c) <= From(negator, d)
    {
      assert Ordered(d);
      EligibleMeans(side, negator, d);
      DistanceIsToTheNearest(negator, d.start, d.end);
      var q :| Takes(d, q) && From(negator, d) == Apart(negator, q);
    }
  }

  ghost predicate SomeInReach<L(!new)>(all: set<Candidate<L>>, side: Side, negator: nat) {
    exists d :: d in all && Lies(side, negator, d) && InReach(negator, d)
  }

  lemma NoneEligibleMeans<L(!new)>(all: set<Candidate<L>>, side: Side, negator: nat)
    requires AllOrdered(all)
    ensures NoneEligible(all, side, negator) <==> !SomeInReach(all, side, negator)
  {
    hide Eligible, Lies, InReach;
    forall d | d in all
      ensures Eligible(side, negator, d) <==> Lies(side, negator, d) && InReach(negator, d)
    {
      assert Ordered(d);
      EligibleMeans(side, negator, d);
    }
  }

  /** The candidates a negator binds. */
  ghost predicate Closest<L(!new)>(b: Binding, all: set<Candidate<L>>, negator: nat, c: Candidate<L>) {
    if !b.forwardFirst then ClosestOn(all, Either, negator, c)
    else ClosestOn(all, if SomeInReach(all, Ahead, negator) then Ahead else NotAhead, negator, c)
  }

  lemma NearestMeans<L(!new)>(b: Binding, all: set<Candidate<L>>, negator: nat, c: Candidate<L>)
    requires AllOrdered(all)
    ensures Nearest(b, all, negator, c) <==> Closest(b, all, negator, c)
  {
    hide NearestOn, ClosestOn, SomeInReach, NoneEligible, AllOrdered;
    NoneEligibleMeans(all, Ahead, negator);
    NearestIsClosest(all, Ahead, negator, c);
    NearestIsClosest(all, NotAhead, negator, c);
    NearestIsClosest(all, Either, negator, c);
  }

  // Right after the one comes a conjunction, with at most one determiner behind it, and then the other.
  predicate Follows<L>(b: Binding, tokens: seq<Token>, x: Candidate<L>, y: Candidate<L>)
    requires WellPlaced(tokens, x) && WellPlaced(tokens, y)
  {
    || (y.start == x.end + 2 && tokens[x.end + 1] in CONJUNCTIONS)
    || (y.start == x.end + 3 && tokens[x.end + 1] in CONJUNCTIONS && tokens[x.end + 2] in b.determiners)
  }

  predicate Coordinated<L>(b: Binding, tokens: seq<Token>, x: Candidate<L>, y: Candidate<L>)
    requires WellPlaced(tokens, x) && WellPlaced(tokens, y)
  {
    Follows(b, tokens, x, y) || Follows(b, tokens, y, x)
  }

  lemma JoinedIsCoordinated<L>(b: Binding, tokens: seq<Token>, x: Candidate<L>, y: Candidate<L>)
    requires WellPlaced(tokens, x) && WellPlaced(tokens, y)
    ensures Joined(b, tokens, x, y) <==> Coordinated(b, tokens, x, y)
  {
  }

  // ---------- What a set of negators strikes ----------

  // Struck through exactly `joins` coordinations, the first candidate being nearest to a negator.
  ghost predicate StruckAfter<L(!new)>(b: Binding, tokens: seq<Token>, all: set<Candidate<L>>, negators: set<nat>,
                                       joins: nat, c: Candidate<L>)
    requires AllPlaced(tokens, all)
    decreases joins
  {
    if joins == 0 then c in all && exists n :: n in negators && Nearest(b, all, n, c)
    else c in all && exists x :: x in all && Joined(b, tokens, x, c) && StruckAfter(b, tokens, all, negators, joins - 1, x)
  }

  /** Struck: reachable through coordination from the union of the nearest sets. */
  ghost predicate Struck<L(!new)>(b: Binding, tokens: seq<Token>, all: set<Candidate<L>>, negators: set<nat>, c: Candidate<L>)
    requires AllPlaced(tokens, all)
  {
    exists joins: nat :: StruckAfter(b, tokens, all, negators, joins, c)
  }

  // Some negator has no candidate within its window, although the sentence has candidates.
  ghost predicate Unresolved<L(!new)>(all: set<Candidate<L>>, negators: set<nat>) {
    all != {} && exists n :: n in negators && NoneEligible(all, Either, n)
  }

  // A set that holds every nearest candidate and everything joined to a member.
  ghost predicate Closed<L(!new)>(b: Binding, tokens: seq<Token>, all: set<Candidate<L>>, negators: set<nat>, s: set<Candidate<L>>)
    requires AllPlaced(tokens, all)
  {
    && (forall n, c :: n in negators && c in all && Nearest(b, all, n, c) ==> c in s)
    && (forall x, y :: x in s && x in all && y in all && Joined(b, tokens, x, y) ==> y in s)
  }

  lemma {:induction false} StruckStaysInside<L(!new)>(
    b: Binding, tokens: seq<Token>, all: set<Candidate<L>>, negators: set<nat>, s: set<Candidate<L>>, joins: nat, c: Candidate<L>)
    requires AllPlaced(tokens, all) && Closed(b, tokens, all, negators, s) && StruckAfter(b, tokens, all, negators, joins, c)
    ensures c in s
    decreases joins
  {
    hide Nearest, Joined;
    if joins == 0 {
      var n :| n in negators && Nearest(b, all, n, c);
    } else {
      var x :| x in all && Joined(b, tokens, x, c) && StruckAfter(b, tokens, all, negators, joins - 1, x);
      StruckStaysInside(b, tokens, all, negators, s, joins - 1, x);
    }
  }

  lemma StruckByNearest<L(!new)>(b: Binding, tokens: seq<Token>, all: set<Candidate<L>>, negators: set<nat>, n: nat, c: Candidate<L>)
    requires AllPlaced(tokens, all) && n in negators && c in all && Nearest(b, all, n, c)
    ensures Struck(b, tokens, all, negators, c)
  {
    hide Nearest, Joined;
    assert StruckAfter(b, tokens, all, negators, 0, c);
  }

  lemma StruckByJoining<L(!new)>(b: Binding, tokens: seq<Token>, all: set<Candidate<L>>, negators: set<nat>, x: Candidate<L>, y: Candidate<L>)
    requires AllPlaced(tokens, all) && x in all && y in all && Struck(b, tokens, all, negators, x) && Joined(b, tokens, x, y)
    ensures Struck(b, tokens, all, negators, y)
  {
    hide Nearest, Joined;
    var joins: nat :| StruckAfter(b, tokens, all, negators, joins, x);
    assert StruckAfter(b, tokens, all, negators, joins + 1, y);
  }

  ghost function StruckSet<L(!new)>(b: Binding, tokens: seq<Token>, all: set<Candidate<L>>, negators: set<nat>): set<Candidate<L>>
    requires AllPlaced(tokens, all)
  {
    set c | c in all && Struck(b, tokens, all, negators, c)
  }

  /** The struck candidates are the least set closed under nearest and coordination. */
  lemma StruckIsLeastFixedPoint<L(!new)>(b: Binding, tokens: seq<Token>, all: set<Candidate<L>>, negators: set<nat>, s: set<Candidate<L>>)
    requires AllPlaced(tokens, all)
    ensures var struck := StruckSet(b, tokens, all, negators);
            Closed(b, tokens, all, negators, struck) && (Closed(b, tokens, all, negators, s) ==> struck <= s)
  {
    hide Nearest, Joined, StruckAfter;
    var struck := StruckSet(b, tokens, all, negators);
    forall n, c | n in negators && c in all && Nearest(b, all, n, c)
      ensures c in struck
    {
      StruckByNearest(b, tokens, all, negators, n, c);
    }
    forall x, y | x in struck && y in all && Joined(b, tokens, x, y)
      ensures y in struck
    {
      StruckByJoining(b, tokens, all, negators, x, y);
    }
    if Closed(b, tokens, all, negators, s) {
      forall c | c in struck
        ensures c in s
      {
        var joins: nat :| StruckAfter(b, tokens, all, negators, joins, c);
        StruckStaysInside(b, tokens, all, negators, s, joins, c);
      }
    }
  }

  // Holds everything a negator binds, and everything coordinated with a member.
  ghost predicate Bound<L(!new)>(b: Binding, tokens: seq<Token>, all: set<Candidate<L>>, negators: set<nat>, s: set<Candidate<L>>)
    requires AllPlaced(tokens, all)
  {
    && (forall n, c :: n in negators && c in all && Closest(b, all, n, c) ==> c in s)
    && (forall x, y :: x in s && x in all && y in all && Coordinated(b, tokens, x, y) ==> y in s)
  }

  lemma ClosedIsBound<L(!new)>(b: Binding, tokens: seq<Token>, all: set<Candidate<L>>, negators: set<nat>, s: set<Candidate<L>>)
    requires AllPlaced(tokens, all)
    ensures Closed(b, tokens, all, negators, s) <==> Bound(b, tokens, all, negators, s)
  {
    hide Nearest, Joined, Closest, Coordinated;
    forall n, c
      ensures Nearest(b, all, n, c) <==> Closest(b, all, n, c)
    {
      NearestMeans(b, all, n, c);
    }
    forall x, y | x in all && y in all
      ensures Joined(b, tokens, x, y) <==> Coordinated(b, tokens, x, y)
    {
      JoinedIsCoordinated(b, tokens, x, y);
    }
  }

  /** Token by token: struck is what lies in every set that holds the closest candidates of every negator
      and whatever is coordinated with a member. */
  lemma StruckExactly<L(!new)>(b: Binding, tokens: seq<Token>, all: set<Candidate<L>>, negators: set<nat>, c: Candidate<L>)
    requires AllPlaced(tokens, all) && c in all
    ensures Struck(b, tokens, all, negators, c) <==> forall s :: Bound(b, tokens, all, negators, s) ==> c in s
  {
    hide Nearest, Joined, StruckAfter, Struck, Closed, Bound;
    var struck := StruckSet(b, tokens, all, negators);
    forall s
      ensures Closed(b, tokens, all, negators, s) <==> Bound(b, tokens, all, negators, s)
      ensures Closed(b, tokens, all, negators, struck) && (Closed(b, tokens, all, negators, s) ==> struck <= s)
    {
      ClosedIsBound(b, tokens, all, negators, s);
      StruckIsLeastFixedPoint(b, tokens, all, negators, s);
    }
    assert c in struck <==> Struck(b, tokens, all, negators, c);
    assert Bound(b, tokens, all, negators, struck);
  }

  /** A negator is unresolved when no token of any candidate is within its window. */
  lemma UnresolvedMeans<L(!new)>(all: set<Candidate<L>>, negators: set<nat>)
    requires AllOrdered(all)
    ensures Unresolved(all, negators) <==> all != {} && exists n :: n in negators && forall c :: c in all ==> !InReach(n, c)
  {
    hide NoneEligible, InReach;
    forall n
      ensures NoneEligible(all, Either, n) <==> forall c :: c in all ==> !InReach(n, c)
    {
      NoneEligibleMeans(all, Either, n);
    }
  }

  lemma {:induction false} MoreNegators<L(!new)>(
    b: Binding, tokens: seq<Token>, all: set<Candidate<L>>, some: set<nat>, more: set<nat>, c: Candidate<L>)
    requires AllPlaced(tokens, all) && some <= more && Struck(b, tokens, all, some, c)
    ensures Struck(b, tokens, all, more, c)
  {
    hide Nearest, Joined, StruckAfter;
    StruckIsLeastFixedPoint(b, tokens, all, more, {});
    var struck := StruckSet(b, tokens, all, more);
    var joins: nat :| StruckAfter(b, tokens, all, some, joins, c);
    StruckStaysInside(b, tokens, all, some, struck, joins, c);
  }

  // ---------- The worklist ----------

  ghost function Values<L(!new)>(candidates: seq<Candidate<L>>): set<Candidate<L>> {
    set c | c in candidates
  }

  // The positions of the candidates nearest to the negator on one side, all of them.
  method NearestWhere<L(!new)>(candidates: seq<Candidate<L>>, side: Side, negator: nat) returns (indices: seq<nat>)
    ensures forall i :: i in indices <==>
      0 <= i < |candidates| && NearestOn(Values(candidates), side, negator, candidates[i])
    ensures indices == [] <==> NoneEligible(Values(candidates), side, negator)
    ensures AllOrdered(Values(candidates)) ==>
      forall i :: i in indices <==> 0 <= i < |candidates| && ClosestOn(Values(candidates), side, negator, candidates[i])
  {
    hide AllOrdered, ClosestOn;
    forall c | AllOrdered(Values(candidates))
      ensures NearestOn(Values(candidates), side, negator, c) <==> ClosestOn(Values(candidates), side, negator, c)
    {
      NearestIsClosest(Values(candidates), side, negator, c);
    }
    indices := [];
    var nearest: nat := 0;
    for i := 0 to |candidates|
      invariant indices == [] <==> forall k :: 0 <= k < i ==> !Eligible(side, negator, candidates[k])
      invariant forall k :: k in indices <==>
        0 <= k < i && Eligible(side, negator, candidates[k]) && From(negator, candidates[k]) == nearest
      invariant indices != [] ==> forall k :: 0 <= k < i && Eligible(side, negator, candidates[k]) ==>
        nearest <= From(negator, candidates[k])
    {
      assert candidates[i] in Values(candidates);
      var distance := From(negator, candidates[i]);
      if OnSide(side, negator, candidates[i]) && distance <= NEGATION_WINDOW {
        if indices == [] || distance < nearest {
          nearest, indices := distance, [i];
        } else if distance == nearest {
          indices := indices + [i];
        }
      }
    }
    if indices != [] {
      var first := indices[0];
      assert first in indices && candidates[first] in Values(candidates);
    }
  }

  // The positions nearest to the negator: ahead of it when any is eligible there and the binding
  // asks for it, on the other side only otherwise.
  method NearestIndices<L(!new)>(b: Binding, candidates: seq<Candidate<L>>, negator: nat) returns (indices: seq<nat>)
    ensures forall i :: i in indices <==> 0 <= i < |candidates| && Nearest(b, Values(candidates), negator, candidates[i])
    ensures indices == [] <==> NoneEligible(Values(candidates), Either, negator)
    ensures AllOrdered(Values(candidates)) ==>
      forall i :: i in indices <==> 0 <= i < |candidates| && Closest(b, Values(candidates), negator, candidates[i])
  {
    hide NearestOn, Eligible, ClosestOn, Closest, AllOrdered;
    forall c | AllOrdered(Values(candidates))
      ensures Nearest(b, Values(candidates), negator, c) <==> Closest(b, Values(candidates), negator, c)
    {
      NearestMeans(b, Values(candidates), negator, c);
    }
    SidesTogether(Values(candidates), negator);
    if !b.forwardFirst {
      indices := NearestWhere(candidates, Either, negator);
      return;
    }
    indices := NearestWhere(candidates, Ahead, negator);
    if indices == [] {
      indices := NearestWhere(candidates, NotAhead, negator);
    }
  }

  lemma SidesTogether<L(!new)>(all: set<Candidate<L>>, negator: nat)
    ensures NoneEligible(all, Either, negator) <==> NoneEligible(all, Ahead, negator) && NoneEligible(all, NotAhead, negator)
  {
  }

  // Every struck position is really struck, and everything joined to a position already
  // processed has been struck too.
  ghost predicate Spreading<L(!new)>(b: Binding, tokens: seq<Token>, candidates: seq<Candidate<L>>, negators: set<nat>,
                                     suppressed: set<nat>, frontier: set<nat>)
    requires AllPlaced(tokens, Values(candidates))
  {
    && (forall i :: i in suppressed ==> i < |candidates| && Struck(b, tokens, Values(candidates), negators, candidates[i]))
    && frontier <= suppressed
    && (forall i, j | i in suppressed && i !in frontier && 0 <= j < |candidates| ::
          Joined(b, tokens, candidates[i], candidates[j]) ==> j in suppressed)
  }

  // One position leaves the frontier once everything joined to it is suppressed.
  method Spread<L(!new)>(b: Binding, tokens: seq<Token>, candidates: seq<Candidate<L>>, ghost negators: set<nat>,
                         suppressed: set<nat>, frontier: seq<nat>) returns (suppressed': set<nat>, frontier': seq<nat>)
    requires AllPlaced(tokens, Values(candidates)) && frontier != []
    requires Spreading(b, tokens, candidates, negators, suppressed, Elements(frontier))
    ensures Spreading(b, tokens, candidates, negators, suppressed', Elements(frontier'))
    ensures suppressed < suppressed' || (suppressed' == suppressed && |frontier'| < |frontier|)
  {
    hide Struck, Joined;
    var current := frontier[|frontier| - 1];
    assert current in Elements(frontier);
    suppressed', frontier' := suppressed, frontier[..|frontier| - 1];
    assert forall i :: i in frontier ==> i == current || i in frontier';
    for other := 0 to |candidates|
      invariant suppressed < suppressed' || (suppressed' == suppressed && |frontier'| < |frontier|)
      invariant Spreading(b, tokens, candidates, negators, suppressed', Elements(frontier') + {current})
      invariant forall j :: 0 <= j < other && Joined(b, tokens, candidates[current], candidates[j]) ==> j in suppressed'
    {
      if other !in suppressed' {
        var joined := Joined(b, tokens, candidates[current], candidates[other]);
        if joined {
          StruckByJoining(b, tokens, Values(candidates), negators, candidates[current], candidates[other]);
          suppressed' := suppressed' + {other};
          frontier' := frontier' + [other];
        }
      }
    }
  }

  ghost function UpTo(n: nat): (r: set<nat>)
    ensures forall i: nat :: i in r <==> i < n
  {
    if n == 0 then {} else UpTo(n - 1) + {n - 1}
  }

  // Runs the worklist until nothing joined to a suppressed position is left out.
  method Propagate<L(!new)>(b: Binding, tokens: seq<Token>, candidates: seq<Candidate<L>>, ghost negators: set<nat>,
                            start: set<nat>, nearest: seq<nat>) returns (suppressed: set<nat>)
    requires AllPlaced(tokens, Values(candidates))
    requires Spreading(b, tokens, candidates, negators, start, Elements(nearest))
    ensures Spreading(b, tokens, candidates, negators, suppressed, {}) && start <= suppressed
  {
    hide Struck, Joined;
    suppressed := start;
    var frontier := nearest;
    ghost var positions := UpTo(|candidates|);
    while frontier != []
      invariant Spreading(b, tokens, candidates, negators, suppressed, Elements(frontier)) && start <= suppressed
      decreases positions - suppressed, |frontier|
    {
      ghost var before := suppressed;
      suppressed, frontier := Spread(b, tokens, candidates, negators, suppressed, frontier);
      if before < suppressed {
        var i :| i in suppressed && i !in before;
        assert i in positions - before && i !in positions - suppressed;
      }
    }
    assert Elements(frontier) == {};
  }

  lemma SeedsSpread<L(!new)>(b: Binding, tokens: seq<Token>, candidates: seq<Candidate<L>>, some: set<nat>, negator: nat,
                             suppressed: set<nat>, nearest: set<nat>)
    requires AllPlaced(tokens, Values(candidates)) && Spreading(b, tokens, candidates, some, suppressed, {})
    requires forall i :: i in nearest ==> 0 <= i < |candidates| && Nearest(b, Values(candidates), negator, candidates[i])
    ensures Spreading(b, tokens, candidates, some + {negator}, suppressed + nearest, nearest)
  {
    hide Struck, Joined, Nearest;
    forall i | i in suppressed + nearest
      ensures i < |candidates| && Struck(b, tokens, Values(candidates), some + {negator}, candidates[i])
    {
      if i in suppressed {
        MoreNegators(b, tokens, Values(candidates), some, some + {negator}, candidates[i]);
      } else {
        StruckByNearest(b, tokens, Values(candidates), some + {negator}, negator, candidates[i]);
      }
    }
  }

  // A spread set that holds every nearest position holds every struck one.
  lemma SpreadIsComplete<L(!new)>(b: Binding, tokens: seq<Token>, candidates: seq<Candidate<L>>, negators: set<nat>,
                                  suppressed: set<nat>, i: nat)
    requires AllPlaced(tokens, Values(candidates)) && Spreading(b, tokens, candidates, negators, suppressed, {})
    requires HoldsNearest(b, candidates, negators, suppressed) && i < |candidates|
    ensures i in suppressed <==> Struck(b, tokens, Values(candidates), negators, candidates[i])
  {
    hide Joined, Nearest, Struck;
    // The values whose every position is suppressed.
    var inside := set c | c in Values(candidates) && forall j :: 0 <= j < |candidates| && candidates[j] == c ==> j in suppressed;
    forall x, y | x in inside && y in Values(candidates) && Joined(b, tokens, x, y)
      ensures y in inside
    {
      var k :| 0 <= k < |candidates| && candidates[k] == x;
    }
    assert Closed(b, tokens, Values(candidates), negators, inside);
    StruckIsLeastFixedPoint(b, tokens, Values(candidates), negators, inside);
    assert candidates[i] in StruckSet(b, tokens, Values(candidates), negators) <==> Struck(b, tokens, Values(candidates), negators, candidates[i]);
    assert candidates[i] in inside ==> i in suppressed;
  }

  ghost predicate HoldsNearest<L(!new)>(b: Binding, candidates: seq<Candidate<L>>, negators: set<nat>, suppressed: set<nat>) {
    forall n, i | n in negators && 0 <= i < |candidates| :: Nearest(b, Values(candidates), n, candidates[i]) ==> i in suppressed
  }

  /** The worklist suppresses exactly the struck candidates, reports exactly whether a negator was left
      unresolved, and terminates. */
  method Suppress<L(!new)>(b: Binding, tokens: seq<Token>, candidates: seq<Candidate<L>>, negators: seq<nat>)
    returns (suppressed: set<nat>, unresolved: bool)
    requires AllPlaced(tokens, Values(candidates))
    ensures forall i :: i in suppressed ==> i < |candidates|
    ensures forall i :: 0 <= i < |candidates| ==>
      (i in suppressed <==> Struck(b, tokens, Values(candidates), Elements(negators), candidates[i]))
    ensures unresolved <==> Unresolved(Values(candidates), Elements(negators))
  {
    hide Struck, Joined, NoneEligible, Nearest;
    suppressed, unresolved := {}, false;
    for k := 0 to |negators|
      invariant Spreading(b, tokens, candidates, Elements(negators[..k]), suppressed, {})
      invariant HoldsNearest(b, candidates, Elements(negators[..k]), suppressed)
      invariant unresolved <==> Unresolved(Values(candidates), Elements(negators[..k]))
    {
      assert Elements(negators[..k + 1]) == Elements(negators[..k]) + {negators[k]};
      var nearest := NearestIndices(b, candidates, negators[k]);
      if nearest == [] && candidates != [] {
        unresolved := true;
      }
      SomeValue(candidates);
      SeedsSpread(b, tokens, candidates, Elements(negators[..k]), negators[k], suppressed, Elements(nearest));
      suppressed := Propagate(b, tokens, candidates, Elements(negators[..k + 1]), suppressed + (set i | i in nearest), nearest);
    }
    assert negators[..|negators|] == negators;
    forall i | 0 <= i < |candidates|
      ensures i in suppressed <==> Struck(b, tokens, Values(candidates), Elements(negators), candidates[i])
    {
      SpreadIsComplete(b, tokens, candidates, Elements(negators), suppressed, i);
    }
  }

  lemma SomeValue<L(!new)>(candidates: seq<Candidate<L>>)
    ensures Values(candidates) == {} <==> candidates == []
  {
    if candidates != [] {
      assert candidates[0] in Values(candidates);
    }
  }
}
