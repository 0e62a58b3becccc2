/** Post-processing of the text extracted from a posting's HTML: line endings, runs of spaces and
    tabs, and blank lines. */
module HtmlText {
  import opened Splitting

  predicate IsHorizontal(c: char) {
    c == ' ' || c == '\t'
  }

  // ---------- The three steps ----------

  function ReplaceCrLf(s: string): string {
    if s == [] then []
    else if |s| >= 2 && s[0] == '\r' && s[1] == '\n' then ['\n'] + ReplaceCrLf(s[2..])
    else [s[0]] + ReplaceCrLf(s[1..])
  }

  function ReplaceCr(s: string): string {
    if s == [] then [] else [if s[0] == '\r' then '\n' else s[0]] + ReplaceCr(s[1..])
  }

  function NormalizeLineEndings(s: string): string {
    ReplaceCr(ReplaceCrLf(s))
  }

  // Every run of spaces and tabs becomes one space.
  function CollapseHorizontal(line: string): string {
    if line == [] then []
    else if !IsHorizontal(line[0]) then [line[0]] + CollapseHorizontal(line[1..])
    else if |line| > 1 && IsHorizontal(line[1]) then CollapseHorizontal(line[1..])
    else [' '] + CollapseHorizontal(line[1..])
  }

  predicate IsBlank(line: string) {
    forall i :: 0 <= i < |line| ==> IsHorizontal(line[i])
  }

  // Of adjacent blank lines only the first is kept, as an empty one.
  function CollapseBlank(lines: seq<string>, previousWasBlank: bool): seq<string> {
    if lines == [] then []
    else if !IsBlank(lines[0]) then [lines[0]] + CollapseBlank(lines[1..], false)
    else if previousWasBlank then CollapseBlank(lines[1..], true)
    else [[]] + CollapseBlank(lines[1..], true)
  }

  // What one line adds to the collapsed lines.
  function Emitted(line: string, previousWasBlank: bool): seq<string> {
    if !IsBlank(line) then [line] else if previousWasBlank then [] else [[]]
  }

  lemma CollapseNext(done: seq<string>, lines: seq<string>, i: nat, previousWasBlank: bool)
    requires i < |lines|
    ensures done + CollapseBlank(lines[i..], previousWasBlank)
         == done + Emitted(lines[i], previousWasBlank) + CollapseBlank(lines[i + 1..], IsBlank(lines[i]))
  {
    hide IsBlank;
    assert lines[i..][0] == lines[i] && lines[i..][1..] == lines[i + 1..];
    var rest := CollapseBlank(lines[i + 1..], IsBlank(lines[i]));
    assert CollapseBlank(lines[i..], previousWasBlank) == Emitted(lines[i], previousWasBlank) + rest;
  }

  method CollapseBlankLines(lines: seq<string>) returns (collapsed: seq<string>)
    ensures collapsed == CollapseBlank(lines, false)
  {
    hide IsBlank, CollapseBlank;
    collapsed := [];
    var previousWasBlank := false;
    assert lines[0..] == lines;
    for i := 0 to |lines|
      invariant collapsed + CollapseBlank(lines[i..], previousWasBlank) == CollapseBlank(lines, false)
    {
      var line := lines[i];
      CollapseNext(collapsed, lines, i, previousWasBlank);
      var isBlank := IsBlank(line);
      if isBlank {
        if !previousWasBlank {
          collapsed := collapsed + [[]];
        } else {
          assert collapsed + [] == collapsed;
        }
      } else {
        collapsed := collapsed + [line];
      }
      previousWasBlank := isBlank;
    }
    NothingLeft(lines, previousWasBlank);
    assert collapsed + [] == collapsed;
  }

  lemma NothingLeft(lines: seq<string>, previousWasBlank: bool)
    ensures CollapseBlank(lines[|lines|..], previousWasBlank) == []
  {
  }

  function CollapseAll(lines: seq<string>): (r: seq<string>)
    ensures |r| == |lines| && forall i :: 0 <= i < |lines| ==> r[i] == CollapseHorizontal(lines[i])
  {
    seq(|lines|, i requires 0 <= i < |lines| => CollapseHorizontal(lines[i]))
  }

  function StripFront(s: string): string {
    if s != [] && s[0] == '\n' then StripFront(s[1..]) else s
  }

  function StripBack(s: string): string {
    if s != [] && s[|s| - 1] == '\n' then StripBack(s[..|s| - 1]) else s
  }

  function Lines(text: string): seq<string> {
    CollapseBlank(CollapseAll(Split(NormalizeLineEndings(text), '\n')), false)
  }

  function PostProcess(text: string): string {
    StripBack(StripFront(Join(Lines(text), '\n')))
  }

  // ---------- What is preserved ----------

  // Every character but the four kinds of white space the steps may touch.
  function Mark(c: char): string {
    if IsHorizontal(c) || c == '\r' || c == '\n' then [] else [c]
  }

  function Ink(s: string): string {
    if s == [] then [] else Mark(s[0]) + Ink(s[1..])
  }

  lemma {:induction false} InkAppend(a: string, b: string)
    ensures Ink(a + b) == Ink(a) + Ink(b)
  {
    hide Mark;
    if a == [] {
      assert a + b == b;
    } else {
      calc {
        Ink(a + b);
        { assert (a + b)[1..] == a[1..] + b && (a + b)[0] == a[0]; }
        Mark(a[0]) + Ink(a[1..] + b);
        { InkAppend(a[1..], b); }
        Mark(a[0]) + (Ink(a[1..]) + Ink(b));
        Mark(a[0]) + Ink(a[1..]) + Ink(b);
        Ink(a) + Ink(b);
      }
    }
  }

  lemma {:induction false} EndingsKeepInk(s: string)
    ensures Ink(ReplaceCrLf(s)) == Ink(s) && Ink(ReplaceCr(s)) == Ink(s)
  {
    if s != [] {
      EndingsKeepInk(s[1..]);
      InkAppend([if s[0] == '\r' then '\n' else s[0]], ReplaceCr(s[1..]));
      InkAppend([s[0]], s[1..]);
      assert s == [s[0]] + s[1..];
      if |s| >= 2 && s[0] == '\r' && s[1] == '\n' {
        EndingsKeepInk(s[2..]);
        InkAppend(['\n'], ReplaceCrLf(s[2..]));
        assert s[1..][1..] == s[2..] && s[1..][0] == '\n';
      } else {
        InkAppend([s[0]], ReplaceCrLf(s[1..]));
      }
    }
  }

  lemma {:induction false} CollapseKeepsInk(line: string)
    ensures Ink(CollapseHorizontal(line)) == Ink(line)
  {
    if line != [] {
      CollapseKeepsInk(line[1..]);
    }
  }

  lemma {:induction false} BlankHasNoInk(line: string)
    requires IsBlank(line)
    ensures Ink(line) == []
  {
    if line != [] {
      BlankHasNoInk(line[1..]);
    }
  }

  function InkOf(lines: seq<string>): string {
    if lines == [] then [] else Ink(lines[0]) + InkOf(lines[1..])
  }

  lemma {:induction false} JoinKeepsInk(lines: seq<string>)
    ensures Ink(Join(lines, '\n')) == InkOf(lines)
  {
    hide Mark;
    if |lines| > 1 {
      var rest := Join(lines[1..], '\n');
      calc {
        Ink(Join(lines, '\n'));
        { assert Join(lines, '\n') == lines[0] + (['\n'] + rest); InkAppend(lines[0], ['\n'] + rest); }
        Ink(lines[0]) + Ink(['\n'] + rest);
        { NewlineHasNoInk(); InkAppend(['\n'], rest); }
        Ink(lines[0]) + ([] + Ink(rest));
        { assert [] + Ink(rest) == Ink(rest); JoinKeepsInk(lines[1..]); }
        InkOf(lines);
      }
    } else if |lines| == 1 {
      assert InkOf(lines) == Ink(lines[0]) + InkOf([]) == Ink(lines[0]);
    }
  }

  lemma NewlineHasNoInk()
    ensures Ink(['\n']) == [] && Ink([]) == []
  {
  }

  lemma {:induction false} BlankLinesHaveNoInk(lines: seq<string>, previousWasBlank: bool)
    ensures InkOf(CollapseBlank(lines, previousWasBlank)) == InkOf(lines)
  {
    hide Ink, IsBlank;
    if lines != [] {
      var rest := CollapseBlank(lines[1..], IsBlank(lines[0]));
      BlankLinesHaveNoInk(lines[1..], IsBlank(lines[0]));
      if IsBlank(lines[0]) {
        BlankHasNoInk(lines[0]);
        NewlineHasNoInk();
        assert InkOf(lines) == [] + InkOf(lines[1..]) == InkOf(rest);
        assert ([[]] + rest)[1..] == rest;
        assert InkOf([[]] + rest) == [] + InkOf(rest) == InkOf(rest);
      } else {
        assert ([lines[0]] + rest)[1..] == rest;
      }
    }
  }

  lemma {:induction false} CollapseAllKeepsInk(lines: seq<string>)
    ensures InkOf(CollapseAll(lines)) == InkOf(lines)
  {
    if lines != [] {
      CollapseAllKeepsInk(lines[1..]);
      CollapseKeepsInk(lines[0]);
      assert CollapseAll(lines)[1..] == CollapseAll(lines[1..]);
    }
  }

  lemma {:induction false} StripKeepsInk(s: string)
    ensures Ink(StripFront(s)) == Ink(s) && Ink(StripBack(s)) == Ink(s)
    decreases |s|
  {
    hide Ink;
    if s != [] {
      var n := |s| - 1;
      NewlineHasNoInk();
      if s[0] == '\n' {
        StripKeepsInk(s[1..]);
        assert s == ['\n'] + s[1..];
        InkAppend(['\n'], s[1..]);
        assert [] + Ink(s[1..]) == Ink(s[1..]);
      }
      if s[n] == '\n' {
        StripKeepsInk(s[..n]);
        assert s == s[..n] + ['\n'];
        InkAppend(s[..n], ['\n']);
        assert Ink(s[..n]) + [] == Ink(s[..n]);
      }
    }
  }

  /** Every character other than space, tab, CR and LF is preserved, in order. */
  lemma InkIsPreserved(text: string)
    ensures Ink(PostProcess(text)) == Ink(text)
  {
    var normalized := NormalizeLineEndings(text);
    var lines := Split(normalized, '\n');
    EndingsKeepInk(text);
    EndingsKeepInk(ReplaceCrLf(text));
    JoinSplit(normalized, '\n');
    JoinKeepsInk(lines);
    CollapseAllKeepsInk(lines);
    BlankLinesHaveNoInk(CollapseAll(lines), false);
    JoinKeepsInk(Lines(text));
    StripKeepsInk(Join(Lines(text), '\n'));
    StripKeepsInk(StripFront(Join(Lines(text), '\n')));
  }

  // ---------- The shape of the result ----------

  // A line no step would touch again.
  predicate TidyLine(line: string) {
    && CollapseHorizontal(line) == line && '\n' !in line && '\r' !in line
    && (IsBlank(line) ==> line == [])
  }

  predicate NoAdjacentBlanks(lines: seq<string>) {
    forall i :: 0 <= i < |lines| - 1 ==> !(IsBlank(lines[i]) && IsBlank(lines[i + 1]))
  }

  // Lines no step would touch again: blank at an end only when there is nothing else.
  predicate Tidy(lines: seq<string>) {
    && lines != [] && NoAdjacentBlanks(lines)
    && (forall i :: 0 <= i < |lines| ==> TidyLine(lines[i]))
    && (|lines| > 1 ==> lines[0] != [] && lines[|lines| - 1] != [])
  }

  lemma {:induction false} NoCrLeft(s: string)
    ensures '\r' !in ReplaceCr(s)
    ensures '\r' !in s ==> ReplaceCr(s) == s && ReplaceCrLf(s) == s
  {
    if s != [] {
      NoCrLeft(s[1..]);
    }
  }

  lemma {:induction false} CollapseIsStable(line: string)
    ensures CollapseHorizontal(CollapseHorizontal(line)) == CollapseHorizontal(line)
    ensures forall c :: c in CollapseHorizontal(line) ==> c == ' ' || c in line
    ensures CollapseHorizontal(line) != [] && line != [] ==>
      (IsHorizontal(CollapseHorizontal(line)[0]) <==> IsHorizontal(line[0]))
    ensures line != [] ==> CollapseHorizontal(line) != []
  {
    if line != [] {
      CollapseIsStable(line[1..]);
    }
  }

  lemma {:induction false} PiecesAreInside(s: string, sep: char, c: char)
    requires c !in s
    ensures forall i :: 0 <= i < |Split(s, sep)| ==> c !in Split(s, sep)[i]
  {
    if s != [] {
      PiecesAreInside(s[1..], sep, c);
    }
  }

  // Collapsing blank lines leaves tidy lines, no two adjacent ones blank.
  lemma {:induction false} CollapsedIsTidy(lines: seq<string>, previousWasBlank: bool)
    requires forall i :: 0 <= i < |lines| ==> CollapseHorizontal(lines[i]) == lines[i] && '\n' !in lines[i] && '\r' !in lines[i]
    ensures var r := CollapseBlank(lines, previousWasBlank);
            && NoAdjacentBlanks(r) && (forall i :: 0 <= i < |r| ==> TidyLine(r[i]))
            && (r != [] && previousWasBlank ==> !IsBlank(r[0]))
            && (lines != [] && !previousWasBlank ==> r != [])
  {
    hide CollapseHorizontal;
    if lines != [] {
      CollapsedIsTidy(lines[1..], IsBlank(lines[0]));
      EmptyIsCollapsed();
      var r, rest := CollapseBlank(lines, previousWasBlank), CollapseBlank(lines[1..], IsBlank(lines[0]));
      assert r == rest || (r == [[]] + rest && IsBlank(lines[0])) || r == [lines[0]] + rest;
    }
  }

  lemma EmptyIsCollapsed()
    ensures CollapseHorizontal([]) == []
  {
  }

  // Dropping the blank line at either end, if there is more than one line.
  function TrimEnds(lines: seq<string>): seq<string> {
    var front := if |lines| > 1 && lines[0] == [] then lines[1..] else lines;
    if |front| > 1 && front[|front| - 1] == [] then front[..|front| - 1] else front
  }

  lemma {:induction false} JoinEnds(lines: seq<string>, sep: char)
    requires |lines| > 1
    ensures Join(lines, sep) == lines[0] + [sep] + Join(lines[1..], sep)
    ensures Join(lines, sep) == Join(lines[..|lines| - 1], sep) + [sep] + lines[|lines| - 1]
  {
    var n := |lines| - 1;
    if n > 1 {
      JoinEnds(lines[1..], sep);
      assert lines[1..][..n - 1] == lines[..n][1..];
      assert Join(lines[..n], sep) == lines[0] + [sep] + Join(lines[1..n], sep) by {
        assert lines[..n][1..] == lines[1..n];
      }
      assert lines[..n][1..] == lines[1..n];
    }
  }

  // The first and last characters of joined tidy lines that are not blank at an end.
  lemma JoinedEnds(lines: seq<string>)
    requires lines != [] && lines[0] != [] && lines[|lines| - 1] != []
    ensures var s := Join(lines, '\n');
            s != [] && s[0] == lines[0][0] && s[|s| - 1] == lines[|lines| - 1][|lines[|lines| - 1]| - 1]
  {
    if |lines| > 1 {
      JoinEnds(lines, '\n');
    }
  }

  lemma TidyEnds(line: string)
    requires TidyLine(line) && line != []
    ensures line[0] != '\n' && line[|line| - 1] != '\n'
  {
    hide CollapseHorizontal, IsBlank;
  }

  lemma EmptyIsBlank()
    ensures IsBlank([])
  {
  }

  // Lines that are tidy one by one.
  predicate Calm(lines: seq<string>) {
    NoAdjacentBlanks(lines) && forall i :: 0 <= i < |lines| ==> TidyLine(lines[i])
  }

  lemma OneBlankLine()
    ensures StripBack(StripFront(Join([[]], '\n'))) == Join(TrimEnds([[]]), '\n') && Tidy(TrimEnds([[]]))
  {
  }

  lemma StripIsTrim(lines: seq<string>)
    requires lines != [] && Calm(lines)
    ensures StripBack(StripFront(Join(lines, '\n'))) == Join(TrimEnds(lines), '\n') && Tidy(TrimEnds(lines))
  {
    hide Calm, StripFront, StripBack, Join, Tidy;
    if lines == [[]] {
      OneBlankLine();
    } else {
      var front := if |lines| > 1 && lines[0] == [] then lines[1..] else lines;
      StripFrontIs(lines, front);
      StripBackIs(front, TrimEnds(lines));
    }
  }

  lemma DropBlank(lines: seq<string>)
    requires Calm(lines) && |lines| > 1 && lines[0] == []
    ensures Calm(lines[1..]) && lines[1] != []
  {
    hide TidyLine, IsBlank;
    EmptyIsBlank();
    assert !(IsBlank(lines[0]) && IsBlank(lines[0 + 1]));
  }

  lemma StripFrontIs(lines: seq<string>, front: seq<string>)
    requires lines != [] && lines != [[]] && Calm(lines)
    requires front == if |lines| > 1 && lines[0] == [] then lines[1..] else lines
    ensures StripFront(Join(lines, '\n')) == Join(front, '\n')
    ensures front != [] && front[0] != [] && Calm(front)
  {
    hide TidyLine, NoAdjacentBlanks, Join, StripFront;
    if front != lines {
      DropBlank(lines);
      JoinEnds(lines, '\n');
      assert Join(lines, '\n') == ['\n'] + Join(front, '\n');
      StripOne(Join(front, '\n'));
    }
    JoinStart(front);
    TidyEnds(front[0]);
    StripNone(Join(front, '\n'));
  }

  lemma StripOne(s: string)
    ensures StripFront(['\n'] + s) == StripFront(s) && StripBack(s + ['\n']) == StripBack(s)
  {
    assert (['\n'] + s)[1..] == s && (s + ['\n'])[..|s|] == s;
  }

  lemma StripNone(s: string)
    ensures s != [] && s[0] != '\n' ==> StripFront(s) == s
    ensures s != [] && s[|s| - 1] != '\n' ==> StripBack(s) == s
  {
  }

  lemma JoinStart(lines: seq<string>)
    requires lines != [] && lines[0] != []
    ensures Join(lines, '\n') != [] && Join(lines, '\n')[0] == lines[0][0]
  {
  }

  lemma StripBackIs(front: seq<string>, back: seq<string>)
    requires front != [] && front[0] != [] && Calm(front)
    requires back == if |front| > 1 && front[|front| - 1] == [] then front[..|front| - 1] else front
    ensures StripBack(Join(front, '\n')) == Join(back, '\n') && Tidy(back)
  {
    hide TidyLine, IsBlank, Join, StripBack;
    EmptyIsBlank();
    var n := |front| - 1;
    assert n > 0 && front[n] == [] ==> !IsBlank(front[n - 1]);
    JoinedEnds(back);
    TidyEnds(back[|back| - 1]);
    StripNone(Join(back, '\n'));
    if back != front {
      JoinEnds(front, '\n');
      assert Join(front, '\n') == Join(back, '\n') + ['\n'];
      StripOne(Join(back, '\n'));
    }
  }

  // Processing joined tidy lines changes nothing.
  lemma TidyStays(lines: seq<string>)
    requires Tidy(lines)
    ensures PostProcess(Join(lines, '\n')) == Join(lines, '\n')
  {
    hide CollapseHorizontal;
    var text := Join(lines, '\n');
    JoinHasNoCr(lines);
    NoCrLeft(text);
    SplitJoin(lines, '\n');
    assert CollapseAll(lines) == lines;
    CollapseBlankStays(lines, false);
    if lines != [[]] {
      JoinedEnds(lines);
    }
  }

  lemma {:induction false} JoinHasNoCr(lines: seq<string>)
    requires forall i :: 0 <= i < |lines| ==> '\r' !in lines[i]
    ensures '\r' !in Join(lines, '\n')
  {
    if |lines| > 1 {
      JoinHasNoCr(lines[1..]);
    }
  }

  lemma {:induction false} CollapseBlankStays(lines: seq<string>, previousWasBlank: bool)
    requires NoAdjacentBlanks(lines) && forall i :: 0 <= i < |lines| ==> TidyLine(lines[i])
    requires lines != [] && previousWasBlank ==> !IsBlank(lines[0])
    ensures CollapseBlank(lines, previousWasBlank) == lines
  {
    hide CollapseHorizontal;
    if lines != [] {
      CollapseBlankStays(lines[1..], IsBlank(lines[0]));
      assert lines == [lines[0]] + lines[1..];
    }
  }

  lemma ResultIsTidy(text: string)
    ensures Tidy(TrimEnds(Lines(text))) && PostProcess(text) == Join(TrimEnds(Lines(text)), '\n')
  {
    hide CollapseHorizontal;
    var normalized := NormalizeLineEndings(text);
    var lines := Split(normalized, '\n');
    NoCrLeft(ReplaceCrLf(text));
    JoinSplit(normalized, '\n');
    PiecesAreInside(normalized, '\n', '\r');
    forall i | 0 <= i < |lines|
      ensures var line := CollapseAll(lines)[i];
              CollapseHorizontal(line) == line && '\n' !in line && '\r' !in line
    {
      CollapseIsStable(lines[i]);
    }
    CollapsedIsTidy(CollapseAll(lines), false);
    StripIsTrim(Lines(text));
  }

  /** Processing a result again changes nothing. */
  lemma PostProcessIsIdempotent(text: string)
    ensures PostProcess(PostProcess(text)) == PostProcess(text)
  {
    hide CollapseHorizontal, PostProcess, Tidy;
    ResultIsTidy(text);
    TidyStays(TrimEnds(Lines(text)));
  }

  /** The result never has two adjacent blank lines, and begins or ends with one only when it is empty. */
  lemma NoTwoBlankLines(text: string)
    ensures var lines := Split(PostProcess(text), '\n');
            NoAdjacentBlanks(lines) && (PostProcess(text) != [] ==> !IsBlank(lines[0]) && !IsBlank(lines[|lines| - 1]))
  {
    hide CollapseHorizontal;
    ResultIsTidy(text);
    var lines := TrimEnds(Lines(text));
    SplitJoin(lines, '\n');
    assert |lines| == 1 ==> Join(lines, '\n') == lines[0];
  }

  // ---------- Which lines there are ----------

  // One step along the text.
  lemma CrLfStep(s: string)
    ensures s == [] ==> ReplaceCrLf(s) == []
    ensures StartsCrLf(s) ==> ReplaceCrLf(s) == ['\n'] + ReplaceCrLf(s[2..])
    ensures s != [] && !StartsCrLf(s) ==> ReplaceCrLf(s) == [s[0]] + ReplaceCrLf(s[1..])
  {
  }

  predicate StartsCrLf(s: string) {
    |s| >= 2 && s[0] == '\r' && s[1] == '\n'
  }

  lemma {:induction false} CrLfAppend(a: string, b: string)
    requires a != [] && b != [] ==> !(a[|a| - 1] == '\r' && b[0] == '\n')
    ensures ReplaceCrLf(a + b) == ReplaceCrLf(a) + ReplaceCrLf(b)
  {
    hide ReplaceCrLf;
    CrLfStep(a);
    if a == [] {
      assert a + b == b;
    } else {
      CrLfStep(a + b);
      var n := if StartsCrLf(a) then 2 else 1;
      CrLfNext(a, b, n);
      CrLfAppend(a[n..], b);
      assert StartsCrLf(a + b) <==> StartsCrLf(a);
    }
  }

  lemma CrLfNext(a: string, b: string, n: nat)
    requires n <= |a|
    ensures (a + b)[n..] == a[n..] + b && (n > 0 ==> (a + b)[0] == a[0]) && (n > 1 ==> (a + b)[1] == a[1])
  {
  }

  lemma {:induction false} CrAppend(a: string, b: string)
    ensures ReplaceCr(a + b) == ReplaceCr(a) + ReplaceCr(b)
  {
    if a == [] {
      assert a + b == b;
    } else {
      CrAppend(a[1..], b);
      assert (a + b)[1..] == a[1..] + b;
    }
  }

  /** Line endings are normalized one by one, wherever no CR LF is torn apart: CR LF, CR and LF are each one
      line feed, and any other character stays. */
  lemma EndingsAre(a: string, b: string, c: char)
    requires a != [] && b != [] ==> !(a[|a| - 1] == '\r' && b[0] == '\n')
    ensures NormalizeLineEndings(a + b) == NormalizeLineEndings(a) + NormalizeLineEndings(b)
    ensures NormalizeLineEndings(['\r', '\n']) == ['\n']
    ensures NormalizeLineEndings([c]) == [if c == '\r' then '\n' else c]
  {
    CrLfAppend(a, b);
    CrAppend(ReplaceCrLf(a), ReplaceCrLf(b));
    assert ['\r', '\n'][2..] == [] && [c][1..] == [] && ['\n'][1..] == [];
  }

  // One step along the line.
  lemma HorizontalStep(line: string)
    requires line != []
    ensures !IsHorizontal(line[0]) ==> CollapseHorizontal(line) == [line[0]] + CollapseHorizontal(line[1..])
    ensures IsHorizontal(line[0]) && |line| > 1 && IsHorizontal(line[1]) ==> CollapseHorizontal(line) == CollapseHorizontal(line[1..])
    ensures IsHorizontal(line[0]) && (|line| > 1 ==> !IsHorizontal(line[1])) ==>
      CollapseHorizontal(line) == [' '] + CollapseHorizontal(line[1..])
  {
  }

  // A run at the front.
  lemma {:induction false} FrontRunIs(run: string, b: string)
    requires run != [] && IsBlank(run) && (b != [] ==> !IsHorizontal(b[0]))
    ensures CollapseHorizontal(run + b) == [' '] + CollapseHorizontal(b)
    decreases |run|
  {
    hide CollapseHorizontal, IsHorizontal;
    HorizontalStep(run + b);
    assert (run + b)[1..] == run[1..] + b;
    if |run| > 1 {
      FrontRunIs(run[1..], b);
    } else {
      assert run[1..] + b == b;
    }
  }

  /** A whole run of spaces and tabs is one space, and a text without any stays as it is. */
  lemma {:induction false} RunsAre(a: string, run: string, b: string)
    requires run != [] && IsBlank(run) && (a != [] ==> !IsHorizontal(a[|a| - 1])) && (b != [] ==> !IsHorizontal(b[0]))
    ensures CollapseHorizontal(a + run + b) == CollapseHorizontal(a) + [' '] + CollapseHorizontal(b)
    decreases |a|
  {
    hide CollapseHorizontal, IsHorizontal;
    if a == [] {
      FrontRunIs(run, b);
      EmptyIsCollapsed();
      assert a + run + b == run + b && CollapseHorizontal(a) == [];
    } else {
      HorizontalStep(a);
      HorizontalStep(a + run + b);
      RunsAre(a[1..], run, b);
      assert (a + run + b)[1..] == a[1..] + run + b && (a + run + b)[0] == a[0];
      assert |a| > 1 ==> (a + run + b)[1] == a[1];
    }
  }

  lemma {:induction false} NoRunStays(a: string)
    requires forall i :: 0 <= i < |a| ==> !IsHorizontal(a[i])
    ensures CollapseHorizontal(a) == a
  {
    if a != [] {
      NoRunStays(a[1..]);
      assert a == [a[0]] + a[1..];
    }
  }

  /** A line is kept when it is not blank, or is the first of a run of blank lines between two that are not. */
  predicate IsKept(lines: seq<string>, i: nat) {
    i < |lines|
    && (!IsBlank(lines[i]) || (i > 0 && !IsBlank(lines[i - 1]) && exists j :: i < j < |lines| && !IsBlank(lines[j])))
  }

  // The kept lines of the first `n`, the blank ones emptied.
  function Kept(lines: seq<string>, n: nat): seq<string>
    requires n <= |lines|
  {
    if n == 0 then []
    else Kept(lines, n - 1) + (if IsKept(lines, n - 1) then [Shown(lines[n - 1])] else [])
  }

  function Shown(line: string): string {
    if IsBlank(line) then [] else line
  }

  // Kept, at these places.
  ghost predicate KeptAt(lines: seq<string>, n: nat, places: seq<nat>) {
    && (forall i: nat :: i in places <==> i < n && IsKept(lines, i))
    && (forall j, k :: 0 <= j < k < |places| ==> places[j] < places[k])
  }

  lemma KeptAtNext(lines: seq<string>, n: nat, places: seq<nat>)
    requires KeptAt(lines, n, places)
    ensures KeptAt(lines, n + 1, places + if IsKept(lines, n) then [n] else [])
  {
    hide IsKept;
    var places' := places + if IsKept(lines, n) then [n] else [];
    assert forall i: nat :: i in places' <==> i in places || (IsKept(lines, n) && i == n);
    forall j, k | 0 <= j < k < |places'|
      ensures places'[j] < places'[k]
    {
      if k == |places| {
        assert places[j] in places;
      }
    }
  }

  lemma KeptNext(lines: seq<string>, n: nat)
    requires n <= |lines|
    ensures n == 0 ==> Kept(lines, n) == []
    ensures n > 0 ==> Kept(lines, n) == Kept(lines, n - 1) + (if IsKept(lines, n - 1) then [Shown(lines[n - 1])] else [])
  {
  }

  lemma NothingKeptAt(lines: seq<string>)
    ensures KeptAt(lines, 0, [])
  {
  }

  lemma {:induction false} KeptPlaces(lines: seq<string>, n: nat) returns (places: seq<nat>)
    requires n <= |lines|
    ensures KeptAt(lines, n, places) && |Kept(lines, n)| == |places|
    ensures forall k :: 0 <= k < |places| ==> places[k] < |lines| && Kept(lines, n)[k] == Shown(lines[places[k]])
  {
    hide IsKept, Shown, Kept, KeptAt;
    KeptNext(lines, n);
    places := [];
    if n == 0 {
      NothingKeptAt(lines);
    } else {
      var front := KeptPlaces(lines, n - 1);
      KeptAtNext(lines, n - 1, front);
      places := front + if IsKept(lines, n - 1) then [n - 1] else [];
    }
  }

  // The lines emitted for the first `n`.
  function Collapsed(lines: seq<string>, n: nat): seq<string>
    requires n <= |lines|
  {
    if n == 0 then [] else Collapsed(lines, n - 1) + Emitted(lines[n - 1], n > 1 && IsBlank(lines[n - 2]))
  }

  lemma {:induction false} CollapseIsCollapsed(lines: seq<string>, n: nat)
    requires n <= |lines|
    ensures Collapsed(lines, n) + CollapseBlank(lines[n..], n > 0 && IsBlank(lines[n - 1])) == CollapseBlank(lines, false)
  {
    hide IsBlank, Emitted, CollapseBlank;
    if n == 0 {
      assert lines[0..] == lines;
    } else {
      CollapseIsCollapsed(lines, n - 1);
      CollapseNext(Collapsed(lines, n - 1), lines, n - 1, n > 1 && IsBlank(lines[n - 2]));
    }
  }

  // A blank first line is emitted but not kept.
  function Lead(lines: seq<string>): seq<string> {
    if lines != [] && IsBlank(lines[0]) then [[]] else []
  }

  // Up to a line that is not blank, what is emitted is kept, but for the lead.
  lemma {:induction false} CollapsedIsKept(lines: seq<string>, n: nat, last: nat)
    requires n <= last + 1 <= |lines| && !IsBlank(lines[last])
    ensures Collapsed(lines, n) == (if n > 0 then Lead(lines) else []) + Kept(lines, n)
  {
    hide IsBlank;
    if n > 1 {
      CollapsedIsKept(lines, n - 1, last);
    }
  }

  // After the last line that is not blank, at most one empty line is emitted and nothing kept.
  lemma {:induction false} NothingKeptAfter(lines: seq<string>, n: nat, last: nat)
    requires last < n <= |lines| && !IsBlank(lines[last]) && forall j :: last < j < |lines| ==> IsBlank(lines[j])
    ensures Kept(lines, n) == Kept(lines, last + 1)
    ensures Collapsed(lines, n) == Collapsed(lines, last + 1) + (if n > last + 1 then [[]] else [])
  {
    hide IsBlank;
    if n > last + 1 {
      NothingKeptAfter(lines, n - 1, last);
    }
  }

  lemma {:induction false} AllBlank(lines: seq<string>, n: nat)
    requires n <= |lines| && forall j :: 0 <= j < |lines| ==> IsBlank(lines[j])
    ensures Kept(lines, n) == [] && Collapsed(lines, n) == if n > 0 then [[]] else []
  {
    hide IsBlank;
    if n > 0 {
      AllBlank(lines, n - 1);
    }
  }

  lemma {:induction false} LastInk(lines: seq<string>, n: nat) returns (last: nat)
    requires n <= |lines| && exists j :: 0 <= j < n && !IsBlank(lines[j])
    ensures last < n && !IsBlank(lines[last]) && forall j :: last < j < n ==> IsBlank(lines[j])
  {
    hide IsBlank;
    last := n - 1;
    if IsBlank(lines[n - 1]) {
      last := LastInk(lines, n - 1);
    }
  }

  // The first and the last kept line are not blank.
  lemma {:induction false} KeptStartsWithInk(lines: seq<string>, n: nat)
    requires n <= |lines|
    ensures Kept(lines, n) != [] ==> Kept(lines, n)[0] != []
  {
    hide IsBlank;
    EmptyIsBlank();
    if n > 0 {
      KeptStartsWithInk(lines, n - 1);
      if n > 1 && Kept(lines, n - 1) == [] {
        assert !IsKept(lines, n - 2);
      }
    }
  }

  lemma TrimmedIsKept(lead: bool, kept: seq<string>, trail: bool)
    requires kept != [] && kept[0] != [] && kept[|kept| - 1] != []
    ensures TrimEnds((if lead then [[]] else []) + kept + (if trail then [[]] else [])) == kept
  {
    var all := (if lead then [[]] else []) + kept + (if trail then [[]] else []);
    var front := kept + (if trail then [[]] else []);
    assert lead ==> all[1..] == front;
    assert !lead ==> all == front;
    assert trail ==> front[..|front| - 1] == kept;
  }

  // Emitted is what is collapsed.
  lemma CollapsedAll(lines: seq<string>)
    ensures CollapseBlank(lines, false) == Collapsed(lines, |lines|)
  {
    hide IsBlank, Collapsed, CollapseBlank;
    var n := |lines|;
    CollapseIsCollapsed(lines, n);
    NothingLeft(lines, n > 0 && IsBlank(lines[n - 1]));
    assert Collapsed(lines, n) + [] == Collapsed(lines, n);
  }

  // With a last line that is not blank, the ends are trimmed to what is kept.
  lemma KeptUpTo(lines: seq<string>, last: nat)
    requires last < |lines| && !IsBlank(lines[last]) && forall j :: last < j < |lines| ==> IsBlank(lines[j])
    ensures Kept(lines, |lines|) != [] && TrimEnds(Collapsed(lines, |lines|)) == Kept(lines, |lines|)
  {
    hide IsBlank, Collapsed, TrimEnds;
    CollapsedIsKept(lines, last + 1, last);
    NothingKeptAfter(lines, |lines|, last);
    LastIsKept(lines, last);
    KeptStartsWithInk(lines, |lines|);
    hide Kept;
    TrimmedIsKept(IsBlank(lines[0]), Kept(lines, |lines|), |lines| > last + 1);
  }

  lemma LastIsKept(lines: seq<string>, last: nat)
    requires last < |lines| && !IsBlank(lines[last])
    ensures Kept(lines, last + 1) == Kept(lines, last) + [lines[last]] && lines[last] != []
  {
    EmptyIsBlank();
    hide IsBlank;
  }

  lemma CollapsedLines(lines: seq<string>)
    requires lines != []
    ensures TrimEnds(CollapseBlank(lines, false)) == if Kept(lines, |lines|) == [] then [[]] else Kept(lines, |lines|)
    ensures Kept(lines, |lines|) == [] <==> forall j :: 0 <= j < |lines| ==> IsBlank(lines[j])
  {
    hide IsBlank, CollapseBlank, Collapsed, Kept;
    CollapsedAll(lines);
    if forall j :: 0 <= j < |lines| ==> IsBlank(lines[j]) {
      AllBlank(lines, |lines|);
    } else {
      var last := LastInk(lines, |lines|);
      hide TrimEnds;
      KeptUpTo(lines, last);
    }
  }

  /** What the result is: of the text's lines, with every run of spaces and tabs collapsed, those that are not
      blank, and one empty line for every run of blank ones between them. */
  lemma LinesAreKept(text: string) returns (lines: seq<string>, places: seq<nat>, shown: seq<string>)
    ensures lines == CollapseAll(Split(NormalizeLineEndings(text), '\n')) && KeptAt(lines, |lines|, places)
    ensures |shown| == |places| && forall k :: 0 <= k < |places| ==> places[k] < |lines| && shown[k] == Shown(lines[places[k]])
    ensures PostProcess(text) == Join(shown, '\n')
    ensures PostProcess(text) == [] <==> forall j :: 0 <= j < |lines| ==> IsBlank(lines[j])
  {
    hide IsBlank, CollapseHorizontal, TrimEnds, Tidy, KeptAt, IsKept;
    ResultIsTidy(text);
    lines := CollapseAll(Split(NormalizeLineEndings(text), '\n'));
    CollapsedLines(lines);
    shown := Kept(lines, |lines|);
    places := KeptPlaces(lines, |lines|);
    if shown != [] {
      KeptStartsWithInk(lines, |lines|);
      JoinStart(shown);
    }
  }
}
