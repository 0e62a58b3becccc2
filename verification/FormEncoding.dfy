/** Form-urlencoded names and values (section 5 of the WHATWG URL Standard), as the standard library's
    `parse_qsl` and `urlencode` read and write them. */
module FormEncoding {
  import opened NaturalKeys

  // ---------- Quoting ----------

  predicate IsSafe(c: char) {
    'a' <= c <= 'z' || 'A' <= c <= 'Z' || '0' <= c <= '9' || c in "_.-~"
  }

  function Hex(n: nat): (c: char)
    requires n < 16
    ensures IsSafe(c) && HexValue(c) == n
  {
    if n < 10 then ('0' as int + n) as char else ('A' as int + n - 10) as char
  }

  // The digit's value, or 16 for a character that is no hexadecimal digit.
  function HexValue(c: char): nat {
    if '0' <= c <= '9' then c as int - '0' as int
    else if 'a' <= c <= 'f' then c as int - 'a' as int + 10
    else if 'A' <= c <= 'F' then c as int - 'A' as int + 10
    else 16
  }

  function QuoteBytes(bytes: seq<Byte>): string {
    if bytes == [] then [] else ['%', Hex(bytes[0] / 16), Hex(bytes[0] % 16)] + QuoteBytes(bytes[1..])
  }

  function QuoteChar(c: char): string {
    if c == ' ' then "+" else if IsSafe(c) then [c] else QuoteBytes(Utf8Char(c))
  }

  function QuotePlus(s: string): string {
    if s == [] then [] else QuoteChar(s[0]) + QuotePlus(s[1..])
  }

  // Only these characters appear in a quoted name or value.
  predicate IsQuoted(c: char) {
    IsSafe(c) || c == '%' || c == '+'
  }

  lemma {:induction false} QuoteBytesChars(bytes: seq<Byte>)
    ensures forall c :: c in QuoteBytes(bytes) ==> IsSafe(c) || c == '%'
  {
    if bytes != [] {
      QuoteBytesChars(bytes[1..]);
    }
  }

  lemma {:induction false} QuotePlusChars(s: string)
    ensures forall c :: c in QuotePlus(s) ==> IsQuoted(c)
  {
    if s != [] {
      QuoteBytesChars(Utf8Char(s[0]));
      QuotePlusChars(s[1..]);
    }
  }

  lemma {:induction false} QuotePlusAppend(s: string, t: string)
    ensures QuotePlus(s + t) == QuotePlus(s) + QuotePlus(t)
  {
    hide QuoteChar;
    if s == [] {
      assert s + t == t;
    } else {
      calc {
        QuotePlus(s + t);
        { assert (s + t)[1..] == s[1..] + t && (s + t)[0] == s[0]; }
        QuoteChar(s[0]) + QuotePlus(s[1..] + t);
        { QuotePlusAppend(s[1..], t); }
        QuoteChar(s[0]) + (QuotePlus(s[1..]) + QuotePlus(t));
        QuotePlus(s) + QuotePlus(t);
      }
    }
  }

  /** What a character is written as: a space as a plus, a safe character as itself, any other as the upper-case
      escapes of its UTF-8 bytes. */
  lemma QuotedAs(c: char)
    ensures c == ' ' ==> QuoteChar(c) == "+"
    ensures IsSafe(c) ==> QuoteChar(c) == [c]
    ensures c != ' ' && !IsSafe(c) ==>
      var bytes, quoted := Utf8Char(c), QuoteChar(c);
      |quoted| == 3 * |bytes| && forall k :: 0 <= k < |bytes| ==> EscapedAt(quoted, 3 * k, bytes[k])
  {
    if c != ' ' && !IsSafe(c) {
      EscapesAre(Utf8Char(c));
    }
  }

  // The escape of a byte stands at the position.
  predicate EscapedAt(s: string, at: nat, b: Byte) {
    && at + 2 < |s| && s[at] == '%' && !('a' <= s[at + 1] <= 'f') && !('a' <= s[at + 2] <= 'f')
    && HexValue(s[at + 1]) < 16 && HexValue(s[at + 2]) < 16
    && HexValue(s[at + 1]) * 16 + HexValue(s[at + 2]) == b as int
  }

  lemma {:induction false} EscapesAre(bytes: seq<Byte>)
    ensures |QuoteBytes(bytes)| == 3 * |bytes|
    ensures forall k :: 0 <= k < |bytes| ==> EscapedAt(QuoteBytes(bytes), 3 * k, bytes[k])
  {
    hide Hex, EscapedAt;
    if bytes != [] {
      var rest := QuoteBytes(bytes[1..]);
      EscapesAre(bytes[1..]);
      FirstEscape(bytes[0], rest);
      forall k | 0 <= k < |bytes|
        ensures EscapedAt(QuoteBytes(bytes), 3 * k, bytes[k])
      {
        if k > 0 {
          assert EscapedAt(rest, 3 * (k - 1), bytes[1..][k - 1]);
          LaterEscape(['%', Hex(bytes[0] / 16), Hex(bytes[0] % 16)], rest, 3 * (k - 1), bytes[k]);
        }
      }
    }
  }

  lemma FirstEscape(b: Byte, rest: string)
    ensures EscapedAt(['%', Hex(b / 16), Hex(b % 16)] + rest, 0, b)
  {
  }

  lemma LaterEscape(triple: string, rest: string, at: nat, b: Byte)
    requires |triple| == 3 && EscapedAt(rest, at, b)
    ensures EscapedAt(triple + rest, at + 3, b)
  {
    hide HexValue;
    assert forall i :: 0 <= i < |rest| ==> (triple + rest)[i + 3] == rest[i];
  }

  // ---------- Unquoting ----------

  function PlusToSpace(s: string): (r: string)
    ensures |r| == |s|
  {
    seq(|s|, i requires 0 <= i < |s| => if s[i] == '+' then ' ' else s[i])
  }

  predicate IsAscii(c: char) {
    c as int < 0x80
  }

  // Percent escapes become bytes; anything else stands for its own code.
  function EscapedBytes(s: string): seq<Byte>
    requires AllAscii(s)
  {
    if s == [] then []
    else if s[0] == '%' && |s| >= 3 && HexValue(s[1]) < 16 && HexValue(s[2]) < 16 then
      [HexValue(s[1]) * 16 + HexValue(s[2])] + EscapedBytes(s[3..])
    else
      assert IsAscii(s[0]);
      var code: Byte := s[0] as int;
      [code] + EscapedBytes(s[1..])
  }

  // What decoding makes of bytes that are no UTF-8 text is left to this function.
  type Replace = seq<Byte> -> string

  ghost function Decode(replace: Replace, bytes: seq<Byte>): string {
    if exists s :: Encodes(s, bytes) then
      var s :| Encodes(s, bytes);
      s
    else replace(bytes)
  }

  predicate Encodes(s: string, bytes: seq<Byte>) {
    Utf8(s) == bytes
  }

  lemma DecodeUtf8(replace: Replace, s: string)
    ensures Decode(replace, Utf8(s)) == s
  {
    assert Encodes(s, Utf8(s));
    Utf8Injective(Decode(replace, Utf8(s)), s);
  }

  function AsciiPrefix(s: string): (n: nat)
    ensures n <= |s| && forall i :: 0 <= i < n ==> IsAscii(s[i])
    ensures n < |s| ==> !IsAscii(s[n])
  {
    if s == [] || !IsAscii(s[0]) then 0 else 1 + AsciiPrefix(s[1..])
  }

  // Each run of ASCII characters is unescaped and decoded on its own; others stay as they are.
  ghost function Unquote(replace: Replace, s: string): string {
    if s == [] then []
    else if !IsAscii(s[0]) then [s[0]] + Unquote(replace, s[1..])
    else
      var n := AsciiPrefix(s);
      Decode(replace, EscapedBytes(s[..n])) + Unquote(replace, s[n..])
  }

  ghost function UnquotePlus(replace: Replace, s: string): string {
    Unquote(replace, PlusToSpace(s))
  }

  // ---------- Reading back what was written ----------

  predicate AllAscii(s: string) {
    forall i :: 0 <= i < |s| ==> IsAscii(s[i])
  }

  lemma EscapedOne(b: Byte, rest: string)
    requires AllAscii(rest)
    ensures var s := ['%', Hex(b / 16), Hex(b % 16)] + rest;
            AllAscii(s) && EscapedBytes(s) == [b] + EscapedBytes(rest)
  {
    var s := ['%', Hex(b / 16), Hex(b % 16)] + rest;
    assert s[3..] == rest && s[1] == Hex(b / 16) && s[2] == Hex(b % 16);
  }

  lemma {:induction false} EscapedBytesOf(bytes: seq<Byte>, rest: string)
    requires AllAscii(rest)
    ensures AllAscii(QuoteBytes(bytes) + rest)
    ensures EscapedBytes(QuoteBytes(bytes) + rest) == bytes + EscapedBytes(rest)
  {
    hide Hex, EscapedBytes;
    if bytes == [] {
      assert QuoteBytes(bytes) + rest == rest;
    } else {
      var triple, tail := ['%', Hex(bytes[0] / 16), Hex(bytes[0] % 16)], QuoteBytes(bytes[1..]) + rest;
      EscapedBytesOf(bytes[1..], rest);
      EscapedOne(bytes[0], tail);
      assert QuoteBytes(bytes) + rest == triple + tail;
      assert bytes == [bytes[0]] + bytes[1..];
    }
  }

  lemma PlusToSpaceAppend(a: string, b: string)
    ensures PlusToSpace(a + b) == PlusToSpace(a) + PlusToSpace(b)
  {
  }

  lemma PlusToSpaceKeeps(a: string)
    requires '+' !in a
    ensures PlusToSpace(a) == a
  {
  }

  lemma {:induction false} QuotedBytes(s: string)
    ensures var t := PlusToSpace(QuotePlus(s));
            AllAscii(t) && EscapedBytes(t) == Utf8(s)
  {
    if s != [] {
      QuotedBytes(s[1..]);
      var c, rest := s[0], PlusToSpace(QuotePlus(s[1..]));
      PlusToSpaceAppend(QuoteChar(c), QuotePlus(s[1..]));
      if c == ' ' {
        assert PlusToSpace("+") == " ";
        assert (" " + rest)[1..] == rest;
      } else if IsSafe(c) {
        PlusToSpaceKeeps([c]);
        assert ([c] + rest)[1..] == rest;
      } else {
        QuoteBytesChars(Utf8Char(c));
        PlusToSpaceKeeps(QuoteBytes(Utf8Char(c)));
        EscapedBytesOf(Utf8Char(c), rest);
      }
    }
  }

  /** Unquoting what was quoted gives the text back, whatever is made of malformed bytes. */
  lemma UnquoteQuote(replace: Replace, s: string)
    ensures UnquotePlus(replace, QuotePlus(s)) == s
  {
    var t := PlusToSpace(QuotePlus(s));
    QuotedBytes(s);
    DecodeUtf8(replace, s);
    if t == [] {
      assert Utf8(s) == [];
    } else {
      var n := AsciiPrefix(t);
      assert t[..n] == t && t[n..] == [];
      assert IsAscii(t[0]) && Unquote(replace, t) == Decode(replace, EscapedBytes(t[..n])) + Unquote(replace, t[n..]);
    }
  }
}
