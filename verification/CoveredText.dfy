/** Options and the trim/lower-case canonicalization shared by the ingestion modules. */
module Options {
  datatype Option<+T> = None | Some(value: T)
}

/** The four covered whitespace characters, and the two canonicalizations every identity
    column goes through (once before lookup, once again in the row validators). */
module CoveredText {
  import opened Options

  predicate IsCovered(c: char) {
    c == ' ' || c == '\t' || c == '\n' || c == '\r'
  }

  function TrimLeft(s: string): (r: string)
    ensures r != [] ==> !IsCovered(r[0])
    ensures |r| <= |s| && r == s[|s| - |r|..]
    ensures forall i :: 0 <= i < |s| - |r| ==> IsCovered(s[i])
  {
    if s != [] && IsCovered(s[0]) then TrimLeft(s[1..]) else s
  }

  function TrimRight(s: string): (r: string)
    ensures r != [] ==> !IsCovered(r[|r| - 1])
    ensures r <= s
    ensures forall i :: |r| <= i < |s| ==> IsCovered(s[i])
  {
    if s != [] && IsCovered(s[|s| - 1]) then TrimRight(s[..|s| - 1]) else s
  }

  function Trim(s: string): (r: string)
    ensures IsTrimmed(r)
    ensures IsTrimmed(s) ==> r == s
  {
    TrimRight(TrimLeft(s))
  }

  predicate AllCovered(s: string) {
    forall i :: 0 <= i < |s| ==> IsCovered(s[i])
  }

  lemma {:induction false} NothingButCovered(s: string)
    requires AllCovered(s)
    ensures TrimLeft(s) == []
  {
    if s != [] {
      NothingButCovered(s[1..]);
    }
  }

  /** Trimming is what lies between covered whitespace, however the text is taken apart. */
  lemma TrimIsTheMiddle(before: string, middle: string, after: string)
    requires AllCovered(before) && IsTrimmed(middle) && AllCovered(after)
    ensures Trim(before + middle + after) == middle
  {
    var s := before + middle + after;
    var left, r := TrimLeft(s), Trim(s);
    var skipped := |s| - |left|;
    hide IsCovered, TrimLeft, TrimRight;
    if middle == [] {
      NothingButCovered(s);
    } else {
      assert s[|before|] == middle[0] && s[|before| + |middle| - 1] == middle[|middle| - 1];
      assert forall i :: 0 <= i < |before| ==> s[i] == before[i];
      assert forall i :: |before| + |middle| <= i < |s| ==> s[i] == after[i - |before| - |middle|];
      assert left != [] ==> left[0] == s[skipped];
      assert skipped == |before|;
      assert left == middle + after;
      assert r != [] ==> r[|r| - 1] == left[|r| - 1];
      assert |r| == |middle|;
    }
  }

  predicate IsTrimmed(s: string) {
    s != [] ==> !IsCovered(s[0]) && !IsCovered(s[|s| - 1])
  }

  // ASCII lower-casing; identifiers are slug-restricted, so no other case mapping is reached.
  function LowerChar(c: char): (r: char)
    ensures !('A' <= r <= 'Z')
    ensures 'A' <= c <= 'Z' ==> r as int - 'a' as int == c as int - 'A' as int
    ensures !('A' <= c <= 'Z') ==> r == c
    ensures IsCovered(r) <==> IsCovered(c)
  {
    if 'A' <= c <= 'Z' then ((c as int) + 32) as char else c
  }

  function Lower(s: string): (r: string)
    ensures |r| == |s| && forall i :: 0 <= i < |s| ==> r[i] == LowerChar(s[i])
  {
    seq(|s|, i requires 0 <= i < |s| => LowerChar(s[i]))
  }

  function CanonicalizeIdentifier(value: string): (r: string)
    ensures CanonicalIdentifier(r)
  {
    LoweredIsCanonical(Trim(value));
    Lower(Trim(value))
  }

  lemma LoweredIsCanonical(s: string)
    requires IsTrimmed(s)
    ensures CanonicalIdentifier(Lower(s))
  {
    hide IsCovered;
  }

  predicate CanonicalIdentifier(s: string) {
    IsTrimmed(s) && Lower(s) == s
  }

  function CanonicalizeNullableText(value: Option<string>): (r: Option<string>)
    ensures CanonicalNullable(r)
  {
    if value.None? || Trim(value.value) == [] then None else Some(Trim(value.value))
  }

  predicate CanonicalNullable(v: Option<string>) {
    v.Some? ==> v.value != [] && IsTrimmed(v.value)
  }

  // Canonicalizing twice, as lookup and row validator together do, is canonicalizing once.
  lemma CanonicalizationIsStable(identifier: string, text: Option<string>)
    ensures CanonicalIdentifier(identifier) <==> CanonicalizeIdentifier(identifier) == identifier
    ensures CanonicalNullable(text) <==> CanonicalizeNullableText(text) == text
  {
    assert CanonicalIdentifier(CanonicalizeIdentifier(identifier));
  }
}
