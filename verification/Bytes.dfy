/** Octets, big-endian integers and well-formed UTF-8. */
module Bytes {
  type Byte = n: nat | n < 256

  function Pow256(k: nat): nat {
    if k == 0 then 1 else 256 * Pow256(k - 1)
  }

  /** The `k` low-order octets of `n`, most significant first. */
  function BigEndian(k: nat, n: nat): (s: seq<Byte>)
    ensures |s| == k
  {
    if k == 0 then [] else BigEndian(k - 1, n / 256) + [n % 256]
  }

  function Value(s: seq<Byte>): nat {
    if s == [] then 0 else 256 * Value(s[..|s| - 1]) + s[|s| - 1]
  }

  lemma {:induction false} ValueBound(s: seq<Byte>)
    ensures Value(s) < Pow256(|s|)
  {
    if s != [] { ValueBound(s[..|s| - 1]); }
  }

  lemma {:induction false} ValueOfBigEndian(k: nat, n: nat)
    requires n < Pow256(k)
    ensures Value(BigEndian(k, n)) == n
  {
    if k > 0 {
      var s := BigEndian(k, n);
      ValueOfBigEndian(k - 1, n / 256);
      assert s[..k - 1] == BigEndian(k - 1, n / 256);
    }
  }

  lemma {:induction false} BigEndianOfValue(s: seq<Byte>)
    ensures BigEndian(|s|, Value(s)) == s
  {
    if s != [] {
      BigEndianOfValue(s[..|s| - 1]);
      assert s == s[..|s| - 1] + [s[|s| - 1]];
    }
  }

  /** Continuation octet. */
  predicate Tail(b: Byte) {
    0x80 <= b <= 0xBF
  }

  /** Well-formed UTF-8 (section 4 of RFC 3629). */
  predicate Utf8(s: seq<Byte>) {
    s == [] ||
    if s[0] <= 0x7F then Utf8(s[1..])
    else if 0xC2 <= s[0] <= 0xDF then |s| >= 2 && Tail(s[1]) && Utf8(s[2..])
    else if 0xE0 <= s[0] <= 0xEF then
      && |s| >= 3 && Tail(s[1]) && Tail(s[2])
      && (s[0] == 0xE0 ==> 0xA0 <= s[1]) && (s[0] == 0xED ==> s[1] <= 0x9F)
      && Utf8(s[3..])
    else if 0xF0 <= s[0] <= 0xF4 then
      && |s| >= 4 && Tail(s[1]) && Tail(s[2]) && Tail(s[3])
      && (s[0] == 0xF0 ==> 0x90 <= s[1]) && (s[0] == 0xF4 ==> s[1] <= 0x8F)
      && Utf8(s[4..])
    else false
  }

  // ---- What is well-formed: the encoding of some text ----------------------------------------------

  /** Unicode scalar values: no surrogates (section 3 of RFC 3629). */
  type Scalar = c: nat | c < 0xD800 || 0xE000 <= c < 0x11_0000 witness 0

  function EncodeScalar(c: Scalar): seq<Byte> {
    if c < 0x80 then [c]
    else if c < 0x800 then [0xC0 + c / 64, 0x80 + c % 64]
    else if c < 0x1_0000 then [0xE0 + c / 4096, 0x80 + c / 64 % 64, 0x80 + c % 64]
    else [0xF0 + c / 262144, 0x80 + c / 4096 % 64, 0x80 + c / 64 % 64, 0x80 + c % 64]
  }

  function EncodeText(cs: seq<Scalar>): seq<Byte> {
    if cs == [] then [] else EncodeScalar(cs[0]) + EncodeText(cs[1..])
  }

  lemma ScalarFront(c: Scalar, rest: seq<Byte>)
    ensures Utf8(EncodeScalar(c) + rest) == Utf8(rest)
  {
    var e := EncodeScalar(c);
    assert (e + rest)[|e|..] == rest;
    assert forall i :: 0 <= i < |e| ==> (e + rest)[i] == e[i];
  }

  lemma Digits(high: nat, low: nat)
    requires low < 64
    ensures (high * 64 + low) / 64 == high && (high * 64 + low) % 64 == low
  {
  }

  lemma TwoOctets(a: nat, b: nat)
    requires 2 <= a < 32 && b < 64
    ensures 0x80 <= a * 64 + b < 0x800 && EncodeScalar(a * 64 + b) == [0xC0 + a, 0x80 + b]
  {
    Digits(a, b);
  }

  lemma ThreeOctets(a: nat, b: nat, d: nat)
    requires a < 16 && b < 64 && d < 64 && (a == 0 ==> 32 <= b) && (a == 13 ==> b < 32)
    ensures var c := (a * 64 + b) * 64 + d;
            (0x800 <= c < 0xD800 || 0xE000 <= c < 0x1_0000) && EncodeScalar(c) == [0xE0 + a, 0x80 + b, 0x80 + d]
  {
    var c := (a * 64 + b) * 64 + d;
    Digits(a, b);
    Digits(a * 64 + b, d);
    assert c / 4096 == a;
  }

  lemma FourOctets(a: nat, b: nat, d: nat, e: nat)
    requires a < 5 && b < 64 && d < 64 && e < 64 && (a == 0 ==> 16 <= b) && (a == 4 ==> b < 16)
    ensures var c := ((a * 64 + b) * 64 + d) * 64 + e;
            0x1_0000 <= c < 0x11_0000 && EncodeScalar(c) == [0xF0 + a, 0x80 + b, 0x80 + d, 0x80 + e]
  {
    var c := ((a * 64 + b) * 64 + d) * 64 + e;
    Digits(a, b);
    Digits(a * 64 + b, d);
    Digits((a * 64 + b) * 64 + d, e);
    assert c / 4096 == a * 64 + b;
    assert c / 262144 == a;
  }

  /** The scalar value that well-formed octets begin with. */
  lemma FirstScalar(s: seq<Byte>) returns (c: Scalar)
    requires s != [] && Utf8(s)
    ensures EncodeScalar(c) <= s && Utf8(s[|EncodeScalar(c)|..])
  {
    var a: nat := s[0];
    if a <= 0x7F { return a; }
    var b: nat := s[1];
    if a <= 0xDF {
      TwoOctets(a - 0xC0, b - 0x80);
      return (a - 0xC0) * 64 + (b - 0x80);
    }
    var d: nat := s[2];
    if a <= 0xEF {
      ThreeOctets(a - 0xE0, b - 0x80, d - 0x80);
      return ((a - 0xE0) * 64 + (b - 0x80)) * 64 + (d - 0x80);
    }
    var e: nat := s[3];
    FourOctets(a - 0xF0, b - 0x80, d - 0x80, e - 0x80);
    return (((a - 0xF0) * 64 + (b - 0x80)) * 64 + (d - 0x80)) * 64 + (e - 0x80);
  }

  lemma {:induction false} TextIsUtf8(cs: seq<Scalar>)
    ensures Utf8(EncodeText(cs))
  {
    if cs != [] {
      TextIsUtf8(cs[1..]);
      ScalarFront(cs[0], EncodeText(cs[1..]));
    }
  }

  lemma {:induction false} Utf8IsText(s: seq<Byte>) returns (cs: seq<Scalar>)
    requires Utf8(s)
    ensures EncodeText(cs) == s
    decreases |s|
  {
    cs := [];
    if s != [] {
      var c := FirstScalar(s);
      var rest := Utf8IsText(s[|EncodeScalar(c)|..]);
      cs := [c] + rest;
      assert cs[1..] == rest && s == EncodeScalar(c) + s[|EncodeScalar(c)|..];
    }
  }

  /** Octets are well-formed exactly if they are the encoding of some sequence of scalar values. */
  lemma Utf8Exactly(s: seq<Byte>)
    ensures Utf8(s) <==> exists cs :: EncodeText(cs) == s
  {
    if Utf8(s) {
      var cs := Utf8IsText(s);
    }
    if cs :| EncodeText(cs) == s {
      TextIsUtf8(cs);
    }
  }
}
