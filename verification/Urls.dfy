/** The identity canonicalizer for URLs: default ports, empty and root paths (section 6.2.3 of RFC 3986),
    tracking parameters and parameter order. */
module Urls {
  import opened Options
  import opened CoveredText
  import opened Ordering
  import opened Splitting
  import opened FormEncoding

  type Pair = (string, string)

  // The parts of the environment a normalization depends on: what decoding makes of malformed bytes,
  // full Unicode lower-casing, the caller's allow-list and the host step.
  datatype Setting = Setting(
    replace: Replace, lower: string -> string, allowed: set<string>, canonicalHost: string -> Option<string>)

  // A URL as split: scheme, host as written, port and everything after the authority; credentials are
  // only noticed.
  datatype Parts = Parts(scheme: string, host: string, port: Option<nat>, credentials: bool, tail: string)

  const EXACT_STRIP_NAMES: set<string> := {
    "gh_src", "lever-source", "trk", "li_fat_id", "ref", "fbclid", "gclid", "mc_cid", "mc_eid"}

  function ShouldStrip(e: Setting, name: string): bool {
    var lowered := e.lower(name);
    lowered !in e.allowed && ("utm_" <= lowered || lowered in EXACT_STRIP_NAMES)
  }

  // ---------- Sorting ----------

  predicate PairAtMost(a: Pair, b: Pair) {
    if a.0 == b.0 then AtMost(a.1, b.1) else AtMost(a.0, b.0)
  }

  lemma PairOrder(a: Pair, b: Pair, c: Pair)
    ensures PairAtMost(a, b) || PairAtMost(b, a)
    ensures PairAtMost(a, b) && PairAtMost(b, a) ==> a == b
    ensures PairAtMost(a, b) && PairAtMost(b, c) ==> PairAtMost(a, c)
  {
    AtMostTotal(a.0, b.0);
    AtMostTotal(a.1, b.1);
    AtMostTotal(b.0, c.0);
    if PairAtMost(a, b) && PairAtMost(b, c) {
      if a.0 == b.0 == c.0 {
        AtMostTransitive(a.1, b.1, c.1);
      } else if a.0 != b.0 && b.0 != c.0 {
        AtMostTransitive(a.0, b.0, c.0);
      }
    }
  }

  predicate Sorted(ps: seq<Pair>) {
    forall i, j :: 0 <= i < j < |ps| ==> PairAtMost(ps[i], ps[j])
  }

  function Insert(p: Pair, ps: seq<Pair>): (r: seq<Pair>)
    ensures multiset(r) == multiset(ps) + multiset{p}
  {
    if ps == [] || PairAtMost(p, ps[0]) then [p] + ps
    else
      assert ps == [ps[0]] + ps[1..];
      [ps[0]] + Insert(p, ps[1..])
  }

  function Sort(ps: seq<Pair>): (r: seq<Pair>)
    ensures multiset(r) == multiset(ps)
  {
    if ps == [] then []
    else
      assert ps == [ps[0]] + ps[1..];
      Insert(ps[0], Sort(ps[1..]))
  }

  lemma {:induction false} InsertSorts(p: Pair, ps: seq<Pair>)
    requires Sorted(ps)
    ensures Sorted(Insert(p, ps))
  {
    if ps != [] {
      if PairAtMost(p, ps[0]) {
        forall j | 0 <= j < |ps|
          ensures PairAtMost(p, ps[j])
        {
          PairOrder(p, ps[0], ps[j]);
        }
      } else {
        InsertSorts(p, ps[1..]);
        var rest := Insert(p, ps[1..]);
        forall j | 0 <= j < |rest|
          ensures PairAtMost(ps[0], rest[j])
        {
          PairOrder(p, ps[0], ps[0]);
          assert rest[j] in multiset(ps[1..]) + multiset{p};
          assert rest[j] == p || rest[j] in ps[1..];
        }
      }
    }
  }

  lemma {:induction false} SortSorts(ps: seq<Pair>)
    ensures Sorted(Sort(ps))
  {
    if ps != [] {
      SortSorts(ps[1..]);
      InsertSorts(ps[0], Sort(ps[1..]));
    }
  }

  lemma SameHead(a: seq<Pair>, b: seq<Pair>)
    requires Sorted(a) && Sorted(b) && multiset(a) == multiset(b) && a != [] && b != []
    ensures a[0] == b[0]
  {
    hide PairAtMost;
    assert a[0] in multiset(b) && b[0] in multiset(a);
    var i :| 0 <= i < |b| && b[i] == a[0];
    var j :| 0 <= j < |a| && a[j] == b[0];
    PairOrder(a[0], b[0], b[0]);
  }

  lemma TailsMatch(a: seq<Pair>, b: seq<Pair>)
    requires multiset(a) == multiset(b) && a != [] && b != [] && a[0] == b[0]
    ensures multiset(a[1..]) == multiset(b[1..])
  {
    assert a == [a[0]] + a[1..] && b == [b[0]] + b[1..];
    assert multiset(a) == multiset{a[0]} + multiset(a[1..]) && multiset(b) == multiset{b[0]} + multiset(b[1..]);
    assert multiset(a[1..]) == multiset(a) - multiset{a[0]} && multiset(b[1..]) == multiset(b) - multiset{b[0]};
  }

  /** A sorted arrangement is unique: sorting depends only on which pairs there are, how often. */
  lemma {:induction false} SortedUnique(a: seq<Pair>, b: seq<Pair>)
    requires Sorted(a) && Sorted(b) && multiset(a) == multiset(b)
    ensures a == b
    decreases |a|
  {
    hide PairAtMost;
    assert |a| == |multiset(a)| == |multiset(b)| == |b|;
    if a != [] {
      SameHead(a, b);
      TailsMatch(a, b);
      SortedUnique(a[1..], b[1..]);
      assert a == [a[0]] + a[1..] && b == [b[0]] + b[1..];
    }
  }

  // ---------- Path and query ----------

  function StripSlashes(path: string): (r: string)
    ensures r <= path && (r != [] ==> r[|r| - 1] != '/')
    ensures forall i :: |r| <= i < |path| ==> path[i] == '/'
  {
    if path != [] && path[|path| - 1] == '/' then StripSlashes(path[..|path| - 1]) else path
  }

  lemma StrippedStays(path: string)
    ensures StripSlashes(StripSlashes(path)) == StripSlashes(path)
  {
  }

  function CanonicalPath(path: string): string {
    if StripSlashes(path) == [] then "/" else StripSlashes(path)
  }

  ghost function ParsePieces(e: Setting, pieces: seq<string>): seq<Pair> {
    if pieces == [] then []
    else if pieces[0] == [] then ParsePieces(e, pieces[1..])
    else
      var (name, value) := Partition(pieces[0], '=');
      [(UnquotePlus(e.replace, name), UnquotePlus(e.replace, value))] + ParsePieces(e, pieces[1..])
  }

  /** The query's parameters, in order, blank values included. */
  ghost function ParseQuery(e: Setting, query: string): seq<Pair> {
    if query == [] then [] else ParsePieces(e, Split(query, '&'))
  }

  function Piece(p: Pair): string {
    QuotePlus(p.0) + ['='] + QuotePlus(p.1)
  }

  function Pieces(ps: seq<Pair>): (r: seq<string>)
    ensures |r| == |ps| && forall i :: 0 <= i < |ps| ==> r[i] == Piece(ps[i])
  {
    seq(|ps|, i requires 0 <= i < |ps| => Piece(ps[i]))
  }

  function WriteQuery(ps: seq<Pair>): string {
    Join(Pieces(ps), '&')
  }

  function Kept(e: Setting, ps: seq<Pair>): seq<Pair> {
    if ps == [] then []
    else (if ShouldStrip(e, ps[0].0) then [] else [ps[0]]) + Kept(e, ps[1..])
  }

  // The part before the fragment, as path and query.
  function SplitTail(tail: string): (string, string) {
    Partition(Partition(tail, '#').0, '?')
  }

  ghost function CanonicalTail(e: Setting, tail: string): string {
    var (path, query) := SplitTail(tail);
    Written(CanonicalPath(path), Sort(Kept(e, ParseQuery(e, query))))
  }

  function Written(path: string, ps: seq<Pair>): string {
    path + if ps == [] then [] else ['?'] + WriteQuery(ps)
  }

  // ---------- What is read ----------

  /** A tail is path, query and fragment: the path ends at the first question mark, the fragment begins at the
      first number sign, and it is dropped. */
  lemma TailParts(path: string, query: string, fragment: string)
    requires '#' !in path && '?' !in path && '#' !in query
    ensures SplitTail(path) == SplitTail(path + ['#'] + fragment) == (path, [])
    ensures SplitTail(path + ['?'] + query) == SplitTail(path + ['?'] + query + ['#'] + fragment) == (path, query)
  {
    hide Partition;
    PartitionAt(path, '#', fragment);
    PartitionAt(path, '?', query);
    PartitionAt(path + ['?'] + query, '#', fragment);
  }

  /** A piece of the query is a name and a value at its first equals sign, a name alone a blank value, and an
      empty piece nothing; the pieces are read one after the other. */
  lemma PieceIsRead(e: Setting, name: string, value: string)
    requires '=' !in name
    ensures ParsePieces(e, [name + ['='] + value]) == [(UnquotePlus(e.replace, name), UnquotePlus(e.replace, value))]
    ensures ParsePieces(e, [name]) == if name == [] then [] else [(UnquotePlus(e.replace, name), UnquotePlus(e.replace, []))]
  {
    hide Partition, UnquotePlus;
    PartitionAt(name, '=', value);
    assert [name + ['='] + value][1..] == [] && [name][1..] == [];
  }

  lemma {:induction false} PiecesAreRead(e: Setting, a: seq<string>, b: seq<string>)
    ensures ParsePieces(e, a + b) == ParsePieces(e, a) + ParsePieces(e, b)
  {
    hide ParsePieces;
    NextPiece(e, a);
    if a == [] {
      assert a + b == b;
    } else {
      PiecesAreRead(e, a[1..], b);
      NextPiece(e, a + b);
      assert (a + b)[1..] == a[1..] + b && (a + b)[0] == a[0];
    }
  }

  lemma NextPiece(e: Setting, pieces: seq<string>)
    ensures ParsePieces(e, pieces) == if pieces == [] then [] else ParsePieces(e, [pieces[0]]) + ParsePieces(e, pieces[1..])
  {
    hide Partition, UnquotePlus;
    if pieces != [] {
      assert [pieces[0]][1..] == [];
    }
  }

  // ---------- Reading back what was written ----------

  lemma QuotedHasNoSeparator(s: string)
    ensures '&' !in QuotePlus(s) && '=' !in QuotePlus(s)
  {
    hide QuotePlus;
    QuotePlusChars(s);
    assert !IsQuoted('&') && !IsQuoted('=');
  }

  lemma PieceParts(e: Setting, p: Pair)
    ensures '&' !in Piece(p) && Piece(p) != []
    ensures var (name, value) := Partition(Piece(p), '=');
            UnquotePlus(e.replace, name) == p.0 && UnquotePlus(e.replace, value) == p.1
  {
    hide QuotePlus, UnquotePlus, Partition;
    QuotedHasNoSeparator(p.0);
    QuotedHasNoSeparator(p.1);
    PartitionAt(QuotePlus(p.0), '=', QuotePlus(p.1));
    UnquoteQuote(e.replace, p.0);
    UnquoteQuote(e.replace, p.1);
  }

  lemma {:induction false} PiecesParse(e: Setting, ps: seq<Pair>)
    ensures ParsePieces(e, Pieces(ps)) == ps
  {
    hide Piece;
    if ps != [] {
      PieceParts(e, ps[0]);
      PiecesParse(e, ps[1..]);
      assert Pieces(ps)[1..] == Pieces(ps[1..]);
      assert ps == [ps[0]] + ps[1..];
    }
  }

  /** Parsing what was serialized is the identity. */
  lemma QueryRoundTrip(e: Setting, ps: seq<Pair>)
    ensures ParseQuery(e, WriteQuery(ps)) == ps
  {
    hide Piece;
    PiecesParse(e, ps);
    if ps != [] {
      forall i | 0 <= i < |ps|
        ensures '&' !in Pieces(ps)[i] && Pieces(ps)[i] != []
      {
        PieceParts(e, ps[i]);
      }
      SplitJoin(Pieces(ps), '&');
      assert Split([], '&') == [[]];
    }
  }

  predicate Plain(path: string) {
    '#' !in path && '?' !in path && path != []
  }

  lemma {:induction false} JoinChars(parts: seq<string>, sep: char, c: char)
    requires c != sep && forall i :: 0 <= i < |parts| ==> c !in parts[i]
    ensures c !in Join(parts, sep)
  {
    if |parts| > 1 {
      JoinChars(parts[1..], sep, c);
    }
  }

  // A written query holds no separator of a URL's tail and no covered whitespace.
  lemma QueryChars(ps: seq<Pair>, c: char)
    requires c == '#' || c == '?' || IsCovered(c)
    ensures c !in WriteQuery(ps)
  {
    forall i | 0 <= i < |ps|
      ensures c !in Pieces(ps)[i]
    {
      QuotePlusChars(ps[i].0);
      QuotePlusChars(ps[i].1);
    }
    JoinChars(Pieces(ps), '&', c);
  }

  lemma TailReadsBack(path: string, ps: seq<Pair>)
    requires Plain(path)
    ensures SplitTail(Written(path, ps)) == (path, if ps == [] then [] else WriteQuery(ps))
  {
    hide WriteQuery;
    QueryChars(ps, '#');
    var tail := Written(path, ps);
    assert '#' !in tail;
    PartitionAt(tail, '#', []);
    PartitionAt(path, '?', WriteQuery(ps));
    assert ps != [] ==> tail == path + ['?'] + WriteQuery(ps);
    assert ps == [] ==> tail == path;
  }

  lemma PathIsPlain(tail: string)
    ensures Plain(CanonicalPath(SplitTail(tail).0))
    ensures forall c :: c in CanonicalPath(SplitTail(tail).0) ==> c == '/' || c in tail
  {
    PartitionPieces(tail, '#');
    PartitionPieces(Partition(tail, '#').0, '?');
    var path := SplitTail(tail).0;
    StrippedChars(path);
  }

  lemma StrippedChars(path: string)
    ensures forall c :: c in StripSlashes(path) ==> c in path
  {
    assert StripSlashes(path) == path[..|StripSlashes(path)|];
  }

  // ---------- Which parameters are kept ----------

  lemma {:induction false} KeptCounts(e: Setting, ps: seq<Pair>, p: Pair)
    ensures multiset(Kept(e, ps))[p] == if ShouldStrip(e, p.0) then 0 else multiset(ps)[p]
  {
    hide ShouldStrip;
    if ps != [] {
      KeptCounts(e, ps[1..], p);
      assert ps == [ps[0]] + ps[1..];
    }
  }

  lemma SortedKeptIsStable(e: Setting, ps: seq<Pair>)
    ensures Sort(Kept(e, Sort(Kept(e, ps)))) == Sort(Kept(e, ps))
  {
    var once := Sort(Kept(e, ps));
    forall p
      ensures multiset(Kept(e, once))[p] == multiset(once)[p]
    {
      KeptCounts(e, ps, p);
      KeptCounts(e, once, p);
    }
    assert multiset(Kept(e, once)) == multiset(once);
    SortSorts(Kept(e, ps));
    SortSorts(Kept(e, once));
    SortedUnique(Sort(Kept(e, once)), once);
  }

  /** The canonical tail keeps exactly the parameters that are no tracking parameters, each as often as
      it was there, in order. */
  lemma KeepsExactly(e: Setting, tail: string, p: Pair)
    ensures var before, after := ParseQuery(e, SplitTail(tail).1), ParseQuery(e, SplitTail(CanonicalTail(e, tail)).1);
            multiset(after)[p] == (if ShouldStrip(e, p.0) then 0 else multiset(before)[p]) && Sorted(after)
    ensures InOrder(ParseQuery(e, SplitTail(CanonicalTail(e, tail)).1))
    ensures e.lower(p.0) in e.allowed ==> !ShouldStrip(e, p.0)
    ensures e.lower(p.0) !in e.allowed ==> (ShouldStrip(e, p.0) <==> "utm_" <= e.lower(p.0) || e.lower(p.0) in EXACT_STRIP_NAMES)
  {
    hide ParsePieces, SplitTail, WriteQuery, ParseQuery, CanonicalPath, Written;
    var (path, query) := SplitTail(tail);
    var kept := Kept(e, ParseQuery(e, query));
    PathIsPlain(tail);
    TailReadsBack(CanonicalPath(path), Sort(kept));
    QueryRoundTrip(e, Sort(kept));
    NothingParsed(e);
    KeptCounts(e, ParseQuery(e, query), p);
    SortSorts(kept);
    SortedIsInOrder(Sort(kept));
  }

  // By name, and by value where names are equal.
  predicate InOrder(ps: seq<Pair>) {
    forall i, j :: 0 <= i < j < |ps| ==> AtMost(ps[i].0, ps[j].0) && (ps[i].0 == ps[j].0 ==> AtMost(ps[i].1, ps[j].1))
  }

  lemma SortedIsInOrder(ps: seq<Pair>)
    requires Sorted(ps)
    ensures InOrder(ps)
  {
    forall i, j | 0 <= i < j < |ps|
      ensures AtMost(ps[i].0, ps[j].0)
    {
      assert PairAtMost(ps[i], ps[j]);
      AtMostTotal(ps[i].0, ps[j].0);
    }
  }

  lemma NothingParsed(e: Setting)
    ensures ParseQuery(e, []) == []
  {
  }

  /** Any reordering of the query's parameters gives the same canonical tail. */
  lemma OrderOfParametersIsIrrelevant(e: Setting, tail: string, tail': string)
    requires SplitTail(tail).0 == SplitTail(tail').0
    requires multiset(ParseQuery(e, SplitTail(tail).1)) == multiset(ParseQuery(e, SplitTail(tail').1))
    ensures CanonicalTail(e, tail) == CanonicalTail(e, tail')
  {
    hide ShouldStrip, SplitTail, ParseQuery, CanonicalPath, Written;
    var a, b := ParseQuery(e, SplitTail(tail).1), ParseQuery(e, SplitTail(tail').1);
    forall p
      ensures multiset(Kept(e, a))[p] == multiset(Kept(e, b))[p]
    {
      KeptCounts(e, a, p);
      KeptCounts(e, b, p);
    }
    assert multiset(Kept(e, a)) == multiset(Kept(e, b));
    SortSorts(Kept(e, a));
    SortSorts(Kept(e, b));
    SortedUnique(Sort(Kept(e, a)), Sort(Kept(e, b)));
  }

  lemma TailIsStable(e: Setting, tail: string)
    ensures CanonicalTail(e, CanonicalTail(e, tail)) == CanonicalTail(e, tail)
  {
    hide ShouldStrip, SplitTail, WriteQuery, ParseQuery, Written;
    var (path, query) := SplitTail(tail);
    var kept := Sort(Kept(e, ParseQuery(e, query)));
    PathIsPlain(tail);
    TailReadsBack(CanonicalPath(path), kept);
    QueryRoundTrip(e, kept);
    NothingParsed(e);
    SortedKeptIsStable(e, ParseQuery(e, query));
    StrippedStays(path);
    assert StripSlashes("/") == [];
  }

  // ---------- The whole URL ----------

  function DefaultPort(scheme: string): nat {
    if scheme == "http" then 80 else 443
  }

  predicate HasCovered(s: string) {
    exists i :: 0 <= i < |s| && IsCovered(s[i])
  }

  // The host as read from the authority: an IPv6 literal loses its brackets.
  function Unbracket(host: string): string {
    if |host| >= 2 && host[0] == '[' && host[|host| - 1] == ']' then host[1..|host| - 1] else host
  }

  lemma UnbracketIs(literal: string)
    ensures Unbracket(['['] + literal + [']']) == literal
    ensures (literal != [] ==> literal[0] != '[') ==> Unbracket(literal) == literal
  {
    var host := ['['] + literal + [']'];
    assert host[1..|host| - 1] == literal;
  }

  /** None for anything that is no absolute http or https URL with a usable host and no credentials. */
  ghost function Normalize(e: Setting, url: Parts): Option<Parts> {
    var scheme := Lower(url.scheme);
    if HasCovered(url.tail) then None
    else if scheme != "http" && scheme != "https" then None
    else if Unbracket(url.host) == [] || url.credentials then None
    else if e.canonicalHost(Unbracket(url.host)).None? then None
    else Some(Parts(scheme, e.canonicalHost(Unbracket(url.host)).value,
                    if url.port == Some(DefaultPort(scheme)) then None else url.port, false, CanonicalTail(e, url.tail)))
  }

  // The port a scheme implies.
  predicate Implied(scheme: string, port: Option<nat>) {
    (scheme == "http" && port == Some(80)) || (scheme == "https" && port == Some(443))
  }

  /** Which URLs are normalized, and part by part to what: scheme in lower case, the host step's host, no port
      the scheme implies, no trailing slash but that of the root; of the query KeepsExactly tells. */
  lemma NormalizeExactly(e: Setting, url: Parts)
    ensures Normalize(e, url).Some? <==>
      && Lower(url.scheme) in {"http", "https"} && !url.credentials && (forall c :: c in url.tail ==> !IsCovered(c))
      && Unbracket(url.host) != [] && e.canonicalHost(Unbracket(url.host)).Some?
    ensures Normalize(e, url).Some? ==>
      var n := Normalize(e, url).value;
      && n.scheme == Lower(url.scheme) && Some(n.host) == e.canonicalHost(Unbracket(url.host)) && !n.credentials
      && n.port == (if Implied(n.scheme, url.port) then None else url.port)
      && n.tail == CanonicalTail(e, url.tail)
      && SplitTail(n.tail).0 == CanonicalPath(SplitTail(url.tail).0)
  {
    hide SplitTail, ParseQuery, CanonicalPath, Written, Lower, Kept, Sort;
    PathIsPlain(url.tail);
    TailReadsBack(CanonicalPath(SplitTail(url.tail).0), Sort(Kept(e, ParseQuery(e, SplitTail(url.tail).1))));
  }

  /** A path loses its trailing slashes, and is the root alone when nothing is left. */
  lemma {:induction false} CanonicalPathIs(path: string, slashes: string)
    requires forall i :: 0 <= i < |slashes| ==> slashes[i] == '/'
    requires path != [] ==> path[|path| - 1] != '/'
    ensures StripSlashes(path + slashes) == path && CanonicalPath(path + slashes) == if path == [] then "/" else path
  {
    if slashes == [] {
      assert path + slashes == path;
    } else {
      var n := |slashes| - 1;
      CanonicalPathIs(path, slashes[..n]);
      assert (path + slashes)[..|path| + n] == path + slashes[..n];
    }
  }

  lemma TailStaysUncovered(e: Setting, tail: string)
    requires !HasCovered(tail)
    ensures !HasCovered(CanonicalTail(e, tail))
  {
    hide SplitTail, WriteQuery, ParseQuery, CanonicalPath;
    var (path, query) := SplitTail(tail);
    var kept := Sort(Kept(e, ParseQuery(e, query)));
    PathIsPlain(tail);
    var result := CanonicalTail(e, tail);
    forall i | 0 <= i < |result|
      ensures !IsCovered(result[i])
    {
      var c := result[i];
      if c in CanonicalPath(path) {
        assert c == '/' || c in tail;
      } else if IsCovered(c) {
        QueryChars(kept, c);
      }
    }
  }

  // What the host step writes, brackets included, is read back and written the same again.
  ghost predicate HostIsStable(e: Setting) {
    forall h, g :: e.canonicalHost(h) == Some(g) ==> Unbracket(g) != [] && e.canonicalHost(Unbracket(g)) == Some(g)
  }

  /** A normalized URL is its own normal form. */
  lemma NormalizationIsIdempotent(e: Setting, url: Parts)
    requires HostIsStable(e) && Normalize(e, url).Some?
    ensures Normalize(e, Normalize(e, url).value) == Normalize(e, url)
  {
    hide CanonicalTail, HasCovered;
    TailIsStable(e, url.tail);
    TailStaysUncovered(e, url.tail);
    var scheme := Lower(url.scheme);
    assert Lower("http") == "http" && Lower("https") == "https";
  }
}
