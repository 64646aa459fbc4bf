/** UTF-8, the encoding under which documents are hashed and signed payloads are measured. */
module Utf8 {
  import opened Basics

  /** The one to four bytes of a scalar value, RFC 3629 section 3. */
  function EncodeChar(c: char): (r: Bytes)
    ensures 1 <= |r| <= 4
  {
    var n := c as int;
    if n < 0x80 then [n as byte]
    else if n < 0x800 then [(0xC0 + n / 0x40) as byte, (0x80 + n % 0x40) as byte]
    else if n < 0x10000 then
      [(0xE0 + n / 0x1000) as byte, (0x80 + n / 0x40 % 0x40) as byte, (0x80 + n % 0x40) as byte]
    else
      [(0xF0 + n / 0x40000) as byte, (0x80 + n / 0x1000 % 0x40) as byte,
       (0x80 + n / 0x40 % 0x40) as byte, (0x80 + n % 0x40) as byte]
  }

  function Encode(s: string): Bytes {
    if s == "" then [] else EncodeChar(s[0]) + Encode(s[1..])
  }

  /** The length announced by a lead byte. */
  function Span(lead: byte): nat {
    if lead < 0x80 then 1 else if lead < 0xE0 then 2 else if lead < 0xF0 then 3 else 4
  }

  /** The scalar value a well-formed group of bytes carries. */
  function Scalar(b: Bytes): int
    requires 1 <= |b| <= 4
  {
    if |b| == 1 then b[0] as int
    else if |b| == 2 then (b[0] as int - 0xC0) * 0x40 + (b[1] as int - 0x80)
    else if |b| == 3 then
      (b[0] as int - 0xE0) * 0x1000 + (b[1] as int - 0x80) * 0x40 + (b[2] as int - 0x80)
    else
      (b[0] as int - 0xF0) * 0x40000 + (b[1] as int - 0x80) * 0x1000
      + (b[2] as int - 0x80) * 0x40 + (b[3] as int - 0x80)
  }

  lemma CharRoundTrip(c: char)
    ensures Span(EncodeChar(c)[0]) == |EncodeChar(c)|
    ensures Scalar(EncodeChar(c)) == c as int
  {
    var n := c as int;
    if 0x800 <= n < 0x10000 {
      assert n / 0x40 / 0x40 == n / 0x1000;
    } else if 0x10000 <= n {
      assert n / 0x40 / 0x40 == n / 0x1000;
      assert n / 0x1000 / 0x40 == n / 0x40000;
    }
  }

  lemma {:induction false} Concat(s: string, t: string)
    ensures Encode(s + t) == Encode(s) + Encode(t)
  {
    if s == "" {
      assert s + t == t;
    } else {
      assert (s + t)[1..] == s[1..] + t;
      Concat(s[1..], t);
    }
  }

  /** Equal encodings come from equal texts. */
  lemma {:induction false} Injective(s: string, t: string)
    requires Encode(s) == Encode(t)
    ensures s == t
  {
    if s == "" {
      assert t == "";
    } else {
      CharRoundTrip(s[0]);
      CharRoundTrip(t[0]);
      var p, q := EncodeChar(s[0]), EncodeChar(t[0]);
      assert Encode(s)[0] == p[0] && Encode(t)[0] == q[0];
      assert p == Encode(s)[..|p|] && q == Encode(t)[..|q|];
      assert p == q;
      DropPrefix(p, Encode(s[1..]), Encode(t[1..]));
      Injective(s[1..], t[1..]);
    }
  }

  /** Seven-bit text encodes to one byte a character. */
  lemma {:induction false} Ascii(s: string)
    requires forall i :: 0 <= i < |s| ==> s[i] as int < 0x80
    ensures |Encode(s)| == |s|
    ensures forall i :: 0 <= i < |s| ==> Encode(s)[i] as int == s[i] as int
  {
    if s != "" {
      Ascii(s[1..]);
    }
  }
}
