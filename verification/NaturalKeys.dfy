/** Natural keys, their byte encoding, and the advisory-lock numbers derived from it. */
module NaturalKeys {
  import opened Options
  import opened CoveredText

  type Byte = n: int | 0 <= n < 256

  // ---------- UTF-8 ----------

  function Utf8Char(c: char): (r: seq<Byte>)
    ensures 1 <= |r| <= 4
  {
    var n := c as int;
    if n < 0x80 then [n]
    else if n < 0x800 then [0xC0 + n / 64, 0x80 + n % 64]
    else if n < 0x1_0000 then [0xE0 + n / 64 / 64, 0x80 + n / 64 % 64, 0x80 + n % 64]
    else [0xF0 + n / 64 / 64 / 64, 0x80 + n / 64 / 64 % 64, 0x80 + n / 64 % 64, 0x80 + n % 64]
  }

  // The bits of a byte after its marker.
  function Payload(b: Byte, marker: int): int {
    b as int - marker
  }

  predicate IsContinuation(b: Byte) {
    0x80 <= b < 0xC0
  }

  /** The bytes of a character: the lead byte tells how many there are, the payloads of six bits each after
      it spell the code point, and no shorter form would hold it (section 3 of RFC 3629). */
  lemma Utf8CharSpells(c: char)
    ensures var r, n := Utf8Char(c), c as int;
            && (forall i :: 1 <= i < |r| ==> IsContinuation(r[i]))
            && match |r|
               case 1 => n == r[0] < 0x80
               case 2 => 0xC0 <= r[0] < 0xE0 && n == Payload(r[0], 0xC0) * 0x40 + Payload(r[1], 0x80) && n >= 0x80
               case 3 =>
                 0xE0 <= r[0] < 0xF0 && n >= 0x800
                 && n == Payload(r[0], 0xE0) * 0x1000 + Payload(r[1], 0x80) * 0x40 + Payload(r[2], 0x80)
               case _ =>
                 0xF0 <= r[0] < 0xF8 && n >= 0x1_0000
                 && n == Payload(r[0], 0xF0) * 0x4_0000 + Payload(r[1], 0x80) * 0x1000 + Payload(r[2], 0x80) * 0x40 + Payload(r[3], 0x80)
  {
  }

  // A text's form is its characters' forms, one after the other.
  lemma {:induction false} Utf8Append(s: string, t: string)
    ensures Utf8(s + t) == Utf8(s) + Utf8(t)
    ensures |s| == 1 ==> Utf8(s) == Utf8Char(s[0])
  {
    hide Utf8Char;
    if s == [] {
      assert s + t == t;
    } else {
      calc {
        Utf8(s + t);
        { assert (s + t)[1..] == s[1..] + t && (s + t)[0] == s[0]; }
        Utf8Char(s[0]) + Utf8(s[1..] + t);
        { Utf8Append(s[1..], t); }
        Utf8Char(s[0]) + (Utf8(s[1..]) + Utf8(t));
        Utf8(s) + Utf8(t);
      }
      if |s| == 1 {
        assert s[1..] == [] && Utf8([]) == [];
      }
    }
  }

  function Utf8(s: string): seq<Byte> {
    if s == [] then [] else Utf8Char(s[0]) + Utf8(s[1..])
  }

  // UTF-8 is a prefix code: the first character can be read off the front of any continuation.
  lemma Utf8CharPrefixFree(c: char, d: char, x: seq<Byte>, y: seq<Byte>)
    requires Utf8Char(c) + x == Utf8Char(d) + y
    ensures c == d && x == y
  {
    var b, a := Utf8Char(c), Utf8Char(d);
    var whole := b + x;
    assert whole[0] == b[0] == a[0];
    assert |a| == |b|;
    assert b == whole[..|b|] == (a + y)[..|a|] == a;
    assert x == whole[|b|..] == (a + y)[|a|..] == y;
    Utf8CharInjective(c, d);
  }

  lemma Utf8CharInjective(c: char, d: char)
    requires Utf8Char(c) == Utf8Char(d)
    ensures c == d
  {
    var n, m := c as int, d as int;
    var b, a := Utf8Char(c), Utf8Char(d);
    assert forall i :: 0 <= i < |b| ==> b[i] == a[i];
    assert b[0] == a[0] && b[|b| - 1] == a[|a| - 1];
    if |b| > 2 {
      assert b[1] == a[1] && b[2] == a[2];
    }
  }

  lemma {:induction false} Utf8Injective(s: string, t: string)
    requires Utf8(s) == Utf8(t)
    ensures s == t
  {
    if s != [] && t != [] {
      Utf8CharPrefixFree(s[0], t[0], Utf8(s[1..]), Utf8(t[1..]));
      Utf8Injective(s[1..], t[1..]);
    }
  }

  // ---------- Length-prefixed components ----------

  const LENGTH_LIMIT := 0x1_0000_0000

  function BigEndian4(n: nat): (r: seq<Byte>)
    requires n < LENGTH_LIMIT
    ensures |r| == 4
  {
    [n / 256 / 256 / 256, n / 256 / 256 % 256, n / 256 % 256, n % 256]
  }

  // The number that bytes spell, most significant first.
  function Spelled(bytes: seq<Byte>): nat {
    if bytes == [] then 0 else Spelled(bytes[..|bytes| - 1]) * 256 + bytes[|bytes| - 1] as int
  }

  lemma SpelledFour(b: seq<Byte>)
    requires |b| == 4
    ensures Spelled(b) == b[0] as int * 0x100_0000 + b[1] as int * 0x1_0000 + b[2] as int * 0x100 + b[3] as int
  {
    assert b[..3][..2] == b[..2] && b[..2][..1] == b[..1] && b[..1][..0] == [];
    assert Spelled(b[..1]) == b[0];
    assert Spelled(b[..2]) == b[0] as int * 256 + b[1] as int;
    assert Spelled(b[..3]) == (b[0] as int * 256 + b[1] as int) * 256 + b[2] as int;
  }

  lemma {:induction false} SpelledAppend(a: seq<Byte>, b: seq<Byte>)
    requires |b| == 4
    ensures Spelled(a + b) == Spelled(a) * LENGTH_LIMIT + Spelled(b)
  {
    SpelledFour(b);
    var s := a + b;
    var n := |a|;
    assert s[..n + 3][..n + 2] == s[..n + 2] && s[..n + 2][..n + 1] == s[..n + 1] && s[..n + 1][..n] == s[..n] == a;
    assert Spelled(s[..n + 1]) == Spelled(a) * 256 + b[0];
    assert Spelled(s[..n + 2]) == (Spelled(a) * 256 + b[0]) * 256 + b[1];
    assert Spelled(s[..n + 3]) == ((Spelled(a) * 256 + b[0]) * 256 + b[1]) * 256 + b[2];
  }

  /** The length prefix spells the length. */
  lemma BigEndian4Spells(n: nat)
    requires n < LENGTH_LIMIT
    ensures Spelled(BigEndian4(n)) == n
  {
    SpelledFour(BigEndian4(n));
  }

  lemma BigEndian4Injective(n: nat, m: nat)
    requires n < LENGTH_LIMIT && m < LENGTH_LIMIT && BigEndian4(n) == BigEndian4(m)
    ensures n == m
  {
    var b, a := BigEndian4(n), BigEndian4(m);
    assert b[0] == a[0] && b[1] == a[1] && b[2] == a[2] && b[3] == a[3];
  }

  // The 4-byte prefix overflows exactly when a component's UTF-8 form reaches 2^32 bytes.
  predicate Encodable(components: seq<string>) {
    forall i :: 0 <= i < |components| ==> |Utf8(components[i])| < LENGTH_LIMIT
  }

  function LengthPrefixed(components: seq<string>): seq<Byte>
    requires Encodable(components)
  {
    if components == [] then []
    else
      var bytes := Utf8(components[0]);
      BigEndian4(|bytes|) + bytes + LengthPrefixed(components[1..])
  }

  /** Grows the byte array one component at a time; None is the overflow of the length prefix. */
  method EncodeLengthPrefixed(components: seq<string>) returns (encoded: Option<seq<Byte>>)
    ensures encoded.Some? <==> Encodable(components)
    ensures encoded.Some? ==> encoded.value == LengthPrefixed(components)
  {
    hide LengthPrefixed, Utf8, BigEndian4;
    var bytes: seq<Byte> := [];
    LastPrefixed(components);
    assert components[0..] == components;
    for i := 0 to |components|
      invariant Encodable(components[..i])
      invariant Encodable(components) ==> bytes + LengthPrefixed(components[i..]) == LengthPrefixed(components)
    {
      var component := Utf8(components[i]);
      if |component| >= LENGTH_LIMIT {
        return None;
      }
      if Encodable(components) {
        NextPrefixed(bytes, components, i);
      }
      bytes := bytes + BigEndian4(|component|);
      bytes := bytes + component;
    }
    assert components[..|components|] == components;
    assert bytes + [] == bytes;
    return Some(bytes);
  }

  lemma LastPrefixed(components: seq<string>)
    ensures LengthPrefixed(components[|components|..]) == []
  {
  }

  lemma NextPrefixed(bytes: seq<Byte>, components: seq<string>, i: nat)
    requires Encodable(components) && i < |components|
    ensures bytes + LengthPrefixed(components[i..])
         == bytes + BigEndian4(|Utf8(components[i])|) + Utf8(components[i]) + LengthPrefixed(components[i + 1..])
  {
    hide Utf8, BigEndian4;
    var component := Utf8(components[i]);
    assert components[i..][0] == components[i] && components[i..][1..] == components[i + 1..];
    assert LengthPrefixed(components[i..]) == BigEndian4(|component|) + component + LengthPrefixed(components[i + 1..]);
  }

  // Component boundaries are unambiguous, even between lists of different lengths.
  lemma {:induction false} LengthPrefixedInjective(a: seq<string>, b: seq<string>)
    requires Encodable(a) && Encodable(b)
    requires LengthPrefixed(a) == LengthPrefixed(b)
    ensures a == b
  {
    if a != [] && b != [] {
      var x, y := Utf8(a[0]), Utf8(b[0]);
      var whole := LengthPrefixed(a);
      assert BigEndian4(|x|) == whole[..4] == BigEndian4(|y|);
      BigEndian4Injective(|x|, |y|);
      assert x == whole[4..4 + |x|] == y;
      assert LengthPrefixed(a[1..]) == whole[4 + |x|..] == LengthPrefixed(b[1..]);
      Utf8Injective(a[0], b[0]);
      LengthPrefixedInjective(a[1..], b[1..]);
    }
  }

  lemma {:induction false} PrefixedAppend(a: seq<string>, b: seq<string>)
    requires Encodable(a + b)
    ensures Encodable(a) && Encodable(b) && LengthPrefixed(a + b) == LengthPrefixed(a) + LengthPrefixed(b)
  {
    hide Utf8, BigEndian4;
    assert forall i :: 0 <= i < |a| ==> (a + b)[i] == a[i];
    assert forall i :: 0 <= i < |b| ==> (a + b)[|a| + i] == b[i];
    if a == [] {
      assert a + b == b;
    } else {
      assert (a + b)[1..] == a[1..] + b;
      PrefixedAppend(a[1..], b);
      var head := BigEndian4(|Utf8(a[0])|) + Utf8(a[0]);
      assert LengthPrefixed(a + b) == head + (LengthPrefixed(a[1..]) + LengthPrefixed(b));
    }
  }

  // One component after another, each behind four bytes that spell the length of its UTF-8 form.
  predicate Spells(bytes: seq<Byte>, component: string) {
    |bytes| == 4 + |Utf8(component)| && Spelled(bytes[..4]) == |Utf8(component)| && bytes[4..] == Utf8(component)
  }

  lemma OnePrefixed(component: string)
    requires Encodable([component])
    ensures Spells(LengthPrefixed([component]), component)
  {
    hide Utf8, BigEndian4, Spelled;
    assert [component][1..] == [] && [component][0] == component;
    var bytes := Utf8(component);
    BigEndian4Spells(|bytes|);
    assert LengthPrefixed([component]) == BigEndian4(|bytes|) + bytes;
  }

  /** A list of components is written component by component, in order. */
  lemma {:induction false} PrefixedIs(components: seq<string>) returns (pieces: seq<seq<Byte>>)
    requires Encodable(components)
    ensures |pieces| == |components| && forall i :: 0 <= i < |pieces| ==> Spells(pieces[i], components[i])
    ensures LengthPrefixed(components) == Flat(pieces)
  {
    hide Utf8, BigEndian4, Spelled, Spells, LengthPrefixed;
    pieces := [];
    if components == [] {
      LastPrefixed(components);
      assert components[0..] == components;
    } else {
      var n := |components| - 1;
      assert components == components[..n] + [components[n]];
      PrefixedAppend(components[..n], [components[n]]);
      var front := PrefixedIs(components[..n]);
      OnePrefixed(components[n]);
      pieces := front + [LengthPrefixed([components[n]])];
      assert pieces[..n] == front;
    }
  }

  function Flat(pieces: seq<seq<Byte>>): seq<Byte> {
    if pieces == [] then [] else Flat(pieces[..|pieces| - 1]) + pieces[|pieces| - 1]
  }

  // ---------- Tagged encodings ----------

  const ENCODING_VERSION: Byte := 1
  const TENANT_TAG: Byte := 1
  const NO_TENANT_TAG: Byte := 2
  const URL_TAG: Byte := 3
  const CANONICAL_URL_LOCK_TAG: Byte := 4
  const TENANT_REQUISITION_LOCK_TAG: Byte := 5

  function TaggedBytes(tag: Byte, components: seq<string>): seq<Byte>
    requires Encodable(components)
  {
    [ENCODING_VERSION, tag] + LengthPrefixed(components)
  }

  lemma TaggedBytesInjective(tag: Byte, components: seq<string>, tag': Byte, components': seq<string>)
    requires Encodable(components) && Encodable(components')
    requires TaggedBytes(tag, components) == TaggedBytes(tag', components')
    ensures tag == tag' && components == components'
  {
    var whole := TaggedBytes(tag, components);
    assert whole[1] == tag == tag';
    assert LengthPrefixed(components) == whole[2..] == LengthPrefixed(components');
    LengthPrefixedInjective(components, components');
  }

  datatype Domain = Tenant | NoTenant | Url

  function DomainTag(domain: Domain): Byte {
    match domain
    case Tenant => TENANT_TAG
    case NoTenant => NO_TENANT_TAG
    case Url => URL_TAG
  }

  datatype NaturalKey = NaturalKey(
    domain: Domain, provider: string, source: string,
    tenantId: Option<string>, jobId: Option<string>, urlNormalized: Option<string>)
  {
    predicate WellFormed() {
      match domain
      case Tenant => tenantId.Some? && jobId.Some?
      case NoTenant => jobId.Some?
      case Url => urlNormalized.Some?
    }

    function Components(): seq<string>
      requires WellFormed()
    {
      match domain
      case Tenant => [provider, source, tenantId.value, jobId.value]
      case NoTenant => [provider, source, jobId.value]
      case Url => [provider, source, urlNormalized.value]
    }

    function CanonicalBytes(): seq<Byte>
      requires WellFormed() && Encodable(Components())
    {
      TaggedBytes(DomainTag(domain), Components())
    }
  }

  // Two keys name the same posting: same domain, same identifying components.  The normalized
  // URL a tenant or no-tenant key merely carries along is not part of its identity.
  predicate SameIdentity(a: NaturalKey, b: NaturalKey)
    requires a.WellFormed() && b.WellFormed()
  {
    a.domain == b.domain && a.Components() == b.Components()
  }

  function CanonicalUrlBytes(url: string): seq<Byte>
    requires Encodable([url])
  {
    TaggedBytes(CANONICAL_URL_LOCK_TAG, [url])
  }

  function TenantRequisitionBytes(provider: string, source: string, tenant: string, requisition: string): seq<Byte>
    requires Encodable([provider, source, tenant, requisition])
  {
    TaggedBytes(TENANT_REQUISITION_LOCK_TAG, [provider, source, tenant, requisition])
  }

  /** A key is written as the version, the tag of its domain, and its parts in the order provider, source, tenant,
      job id or URL. */
  lemma CanonicalBytesAre(key: NaturalKey)
    requires key.WellFormed() && Encodable(key.Components())
    ensures key.domain == Tenant ==>
      key.CanonicalBytes() == [1, 1] + LengthPrefixed([key.provider, key.source, key.tenantId.value, key.jobId.value])
    ensures key.domain == NoTenant ==> key.CanonicalBytes() == [1, 2] + LengthPrefixed([key.provider, key.source, key.jobId.value])
    ensures key.domain == Url ==> key.CanonicalBytes() == [1, 3] + LengthPrefixed([key.provider, key.source, key.urlNormalized.value])
  {
  }

  /** Equal natural-key bytes are equal identities, in every domain. */
  lemma CanonicalBytesInjective(a: NaturalKey, b: NaturalKey)
    requires a.WellFormed() && b.WellFormed() && Encodable(a.Components()) && Encodable(b.Components())
    ensures a.CanonicalBytes() == b.CanonicalBytes() <==> SameIdentity(a, b)
  {
    if a.CanonicalBytes() == b.CanonicalBytes() {
      TaggedBytesInjective(DomainTag(a.domain), a.Components(), DomainTag(b.domain), b.Components());
    }
  }

  /** The two tier encodings are injective and never meet each other or a natural key's. */
  lemma TierBytesInjective(key: NaturalKey, url: string, url': string, four: seq<string>, four': seq<string>)
    requires key.WellFormed() && Encodable(key.Components()) && Encodable([url]) && Encodable([url'])
    requires |four| == 4 && |four'| == 4 && Encodable(four) && Encodable(four')
    ensures CanonicalUrlBytes(url) == CanonicalUrlBytes(url') <==> url == url'
    ensures (TenantRequisitionBytes(four[0], four[1], four[2], four[3])
             == TenantRequisitionBytes(four'[0], four'[1], four'[2], four'[3])) <==> four == four'
    ensures CanonicalUrlBytes(url) != TenantRequisitionBytes(four[0], four[1], four[2], four[3])
    ensures key.CanonicalBytes() != CanonicalUrlBytes(url)
    ensures key.CanonicalBytes() != TenantRequisitionBytes(four[0], four[1], four[2], four[3])
  {
    assert four == [four[0], four[1], four[2], four[3]] && four' == [four'[0], four'[1], four'[2], four'[3]];
    if CanonicalUrlBytes(url) == CanonicalUrlBytes(url') {
      TaggedBytesInjective(CANONICAL_URL_LOCK_TAG, [url], CANONICAL_URL_LOCK_TAG, [url']);
      assert [url][0] == [url'][0];
    }
    if TaggedBytes(TENANT_REQUISITION_LOCK_TAG, four) == TaggedBytes(TENANT_REQUISITION_LOCK_TAG, four') {
      TaggedBytesInjective(TENANT_REQUISITION_LOCK_TAG, four, TENANT_REQUISITION_LOCK_TAG, four');
    }
    assert CanonicalUrlBytes(url)[1] == 4 && TaggedBytes(TENANT_REQUISITION_LOCK_TAG, four)[1] == 5;
    assert key.CanonicalBytes()[1] == DomainTag(key.domain);
  }

  // ---------- Lock numbers ----------

  // A SHA-256 digest; the hash function itself is a parameter wherever it is used.
  type Digest = s: seq<Byte> | |s| == 32 witness seq(32, _ => 0)
  type HashFunction = seq<Byte> -> Digest

  const TWO_64 := 0x1_0000_0000_0000_0000
  const TWO_63 := 0x8000_0000_0000_0000

  function Unsigned8(b: seq<Byte>): (n: int)
    requires |b| == 8
    ensures 0 <= n < TWO_64
  {
    Halve(b[..4]) * LENGTH_LIMIT + Halve(b[4..])
  }

  // The value of four big-endian bytes.
  function Halve(b: seq<Byte>): (n: int)
    requires |b| == 4
    ensures 0 <= n < LENGTH_LIMIT && BigEndian4(n) == b
  {
    var b0: int, b1: int, b2: int, b3: int := b[0], b[1], b[2], b[3];
    ((b0 * 256 + b1) * 256 + b2) * 256 + b3
  }

  function ToSigned(unsigned: int): int {
    if unsigned >= TWO_63 then unsigned - TWO_64 else unsigned
  }

  function LockNumber(digest: Digest): int {
    ToSigned(Unsigned8(digest[..8]))
  }

  /** The lock number is the number the first eight digest bytes spell, in two's complement: their top bit
      is its sign. */
  lemma LockNumberSpells(d: Digest)
    ensures LockNumber(d) == Spelled(d[..8]) - (if d[0] >= 0x80 then TWO_64 else 0)
  {
    var prefix := d[..8];
    var hi, lo := prefix[..4], prefix[4..];
    assert prefix == hi + lo && hi[0] == d[0];
    SpelledAppend(hi, lo);
    SpelledFour(hi);
    SpelledFour(lo);
  }

  /** The lock number is a bijection between the first eight digest bytes and the signed
      64-bit range: in range, injective on the prefix, and onto. */
  lemma LockNumberBijection(d: Digest, e: Digest, n: int)
    requires -TWO_63 <= n < TWO_63
    ensures -TWO_63 <= LockNumber(d) < TWO_63
    ensures LockNumber(d) == LockNumber(e) <==> d[..8] == e[..8]
    ensures exists w: Digest :: LockNumber(w) == n
  {
    hide Unsigned8;
    if LockNumber(d) == LockNumber(e) {
      Unsigned8Injective(d[..8], e[..8]);
    }
    var u := if n < 0 then n + TWO_64 else n;
    var bytes := Unsigned8Onto(u);
    var zeros: seq<Byte> := seq(24, _ => 0);
    var w: Digest := bytes + zeros;
    assert w[..8] == bytes;
    assert LockNumber(w) == n;
  }

  lemma Unsigned8Injective(x: seq<Byte>, y: seq<Byte>)
    requires |x| == |y| == 8 && Unsigned8(x) == Unsigned8(y)
    ensures x == y
  {
    hide Halve, BigEndian4;
    assert Halve(x[..4]) == Halve(y[..4]) && Halve(x[4..]) == Halve(y[4..]);
    assert x == x[..4] + x[4..] && y == y[..4] + y[4..];
  }

  lemma Unsigned8Onto(u: int) returns (bytes: seq<Byte>)
    requires 0 <= u < TWO_64
    ensures |bytes| == 8 && Unsigned8(bytes) == u
  {
    hide Halve, BigEndian4;
    var hi, lo := BigEndian4(u / LENGTH_LIMIT), BigEndian4(u % LENGTH_LIMIT);
    BigEndian4Injective(Halve(hi), u / LENGTH_LIMIT);
    BigEndian4Injective(Halve(lo), u % LENGTH_LIMIT);
    bytes := hi + lo;
    assert bytes[..4] == hi && bytes[4..] == lo;
  }

  // ---------- Resolution ----------

  /** Chooses the natural-key form in precedence order; None when no form can be established. */
  function Resolve(
    provider: string, source: string, tenant: Option<string>, jobId: Option<string>, url: Option<string>
  ): (key: Option<NaturalKey>)
    ensures key.Some? ==> key.value.WellFormed()
    ensures key.None? <==> CanonicalizeNullableText(jobId).None? && url.None?
    ensures key.Some? ==> CanonicalIdentifier(key.value.provider) && CanonicalIdentifier(key.value.source)
    ensures key.Some? ==> CanonicalNullable(key.value.tenantId) && CanonicalNullable(key.value.jobId)
    ensures key.Some? ==> (key.value.domain.Url? <==> CanonicalizeNullableText(jobId).None?)
    ensures key.Some? && !key.value.domain.Url? ==> (key.value.domain.Tenant? <==> CanonicalizeNullableText(tenant).Some?)
  {
    var p, s := CanonicalizeIdentifier(provider), CanonicalizeIdentifier(source);
    var t, j := CanonicalizeNullableText(tenant), CanonicalizeNullableText(jobId);
    if j.Some? && t.Some? then Some(NaturalKey(Tenant, p, s, t, j, url))
    else if j.Some? then Some(NaturalKey(NoTenant, p, s, None, j, url))
    else if url.Some? then Some(NaturalKey(Url, p, s, None, None, url))
    else None
  }

  /** Two postings have the same identity exactly when provider and source agree but for case and
      surrounding whitespace, and so do job id and tenant when there is a job id, or the URLs when there
      is none. */
  lemma SameIdentityExactly(
    provider: string, source: string, tenant: Option<string>, jobId: Option<string>, url: Option<string>,
    provider': string, source': string, tenant': Option<string>, jobId': Option<string>, url': Option<string>)
    requires Resolve(provider, source, tenant, jobId, url).Some? && Resolve(provider', source', tenant', jobId', url').Some?
    ensures SameIdentity(Resolve(provider, source, tenant, jobId, url).value, Resolve(provider', source', tenant', jobId', url').value)
      <==>
      && CanonicalizeIdentifier(provider) == CanonicalizeIdentifier(provider')
      && CanonicalizeIdentifier(source) == CanonicalizeIdentifier(source')
      && CanonicalizeNullableText(jobId) == CanonicalizeNullableText(jobId')
      && (if CanonicalizeNullableText(jobId).Some? then CanonicalizeNullableText(tenant) == CanonicalizeNullableText(tenant')
          else url == url')
  {
    hide CanonicalizeIdentifier, CanonicalizeNullableText;
    var a, b := Resolve(provider, source, tenant, jobId, url).value, Resolve(provider', source', tenant', jobId', url').value;
    if SameIdentity(a, b) {
      assert a.Components()[0] == b.Components()[0] && a.Components()[1] == b.Components()[1];
      assert a.Components()[2] == b.Components()[2];
      assert a.domain.Tenant? ==> a.Components()[3] == b.Components()[3];
    }
  }
}
