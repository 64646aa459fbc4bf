/** The salted fingerprint and the leaf of src/blockchain/fingerprint.util.ts. Fingerprints, salts and
    chain heads travel as hexadecimal text, which is what documents contain. */
module Fingerprint {
  import opened Basics
  import Utf8

  function HexDigit(d: nat): (c: char)
    requires d < 16
  {
    if d < 10 then '0' + d as char else 'a' + (d - 10) as char
  }

  predicate IsHexDigit(c: char) { '0' <= c <= '9' || 'a' <= c <= 'f' || 'A' <= c <= 'F' }

  function HexValue(c: char): (d: nat)
    requires IsHexDigit(c)
    ensures d < 16
  {
    if c <= '9' then c as int - '0' as int
    else if c <= 'F' then c as int - 'A' as int + 10
    else c as int - 'a' as int + 10
  }

  /** `toLowerCase` on the letters of hexadecimal text. */
  function LowerChar(c: char): char {
    if 'A' <= c <= 'Z' then 'a' + (c - 'A') else c
  }

  function Lower(s: string): (t: string)
    ensures |t| == |s|
  {
    seq(|s|, i requires 0 <= i < |s| => LowerChar(s[i]))
  }

  /** `^0x[0-9a-fA-F]{64}$` */
  predicate IsHex32(s: string) {
    |s| == 66 && s[0] == '0' && s[1] == 'x' && forall i :: 2 <= i < 66 ==> IsHexDigit(s[i])
  }

  function FromHex(s: string): Word
    requires IsHex32(s)
  {
    seq(32, i requires 0 <= i < 32 => (16 * HexValue(s[2 + 2 * i]) + HexValue(s[3 + 2 * i])) as byte)
  }

  /** The lower-case text hash functions return. */
  function ToHex(w: Word): (s: string)
    ensures |s| == 66
  {
    seq(66, i requires 0 <= i < 66 =>
      if i == 0 then '0' else if i == 1 then 'x'
      else if i % 2 == 0 then HexDigit(w[(i - 2) / 2] as int / 16) else HexDigit(w[(i - 2) / 2] as int % 16))
  }

  lemma DigitRoundTrip(d: nat)
    requires d < 16
    ensures IsHexDigit(HexDigit(d)) && HexValue(HexDigit(d)) == d && LowerChar(HexDigit(d)) == HexDigit(d)
  {
  }

  lemma ValueRoundTrip(c: char)
    requires IsHexDigit(c)
    ensures HexDigit(HexValue(c)) == LowerChar(c)
  {
  }

  lemma HexByte(w: Word, i: nat)
    requires i < 32
    ensures ToHex(w)[2 + 2 * i] == HexDigit(w[i] as int / 16)
    ensures ToHex(w)[3 + 2 * i] == HexDigit(w[i] as int % 16)
  {
  }

  lemma HexWord(w: Word)
    ensures IsHex32(ToHex(w)) && Lower(ToHex(w)) == ToHex(w)
    ensures FromHex(ToHex(w)) == w
  {
    var s := ToHex(w);
    forall i | 2 <= i < 66 ensures IsHexDigit(s[i]) && LowerChar(s[i]) == s[i] {
      var b := w[(i - 2) / 2] as int;
      DigitRoundTrip(if i % 2 == 0 then b / 16 else b % 16);
    }
    assert Lower(s) == s;
    forall i | 0 <= i < 32 ensures FromHex(s)[i] == w[i] {
      HexByte(w, i);
      DigitRoundTrip(w[i] as int / 16);
      DigitRoundTrip(w[i] as int % 16);
    }
  }

  lemma ReadByte(s: string, i: nat)
    requires IsHex32(s) && i < 32
    ensures FromHex(s)[i] as int / 16 == HexValue(s[2 + 2 * i])
    ensures FromHex(s)[i] as int % 16 == HexValue(s[3 + 2 * i])
  {
  }

  /** Reading text and writing it back only lowers its case: texts equal but for case are one word. */
  lemma HexText(s: string)
    requires IsHex32(s)
    ensures ToHex(FromHex(s)) == Lower(s)
  {
    var t := ToHex(FromHex(s));
    forall i | 2 <= i < 66 ensures t[i] == LowerChar(s[i]) {
      var j := (i - 2) / 2;
      HexByte(FromHex(s), j);
      ReadByte(s, j);
      ValueRoundTrip(s[i]);
    }
  }

  lemma SameTextSameWord(s: string, t: string)
    requires IsHex32(s) && IsHex32(t)
    ensures Lower(s) == Lower(t) <==> FromHex(s) == FromHex(t)
  {
    HexText(s);
    HexText(t);
    HexWord(FromHex(s));
    HexWord(FromHex(t));
  }

  /** What is hashed for a document: the salt, then its UTF-8 bytes. */
  function Preimage(salt: Word, document: string): Bytes {
    salt + Utf8.Encode(document)
  }

  /** `computeFingerprint`: None stands for the exception on a malformed salt. */
  function ComputeFingerprint(h: Bytes -> Word, salt: string, document: string): Option<string> {
    if IsHex32(salt) then Some(ToHex(h(Preimage(FromHex(salt), document)))) else None
  }

  /** `toLeaf`: None stands for the exception on a malformed fingerprint. */
  function ToLeaf(h: Bytes -> Word, fingerprint: string): Option<Word> {
    if IsHex32(fingerprint) then Some(h(FromHex(fingerprint))) else None
  }

  lemma PreimageInjective(salt: Word, document: string, salt': Word, document': string)
    requires Preimage(salt, document) == Preimage(salt', document')
    ensures salt == salt' && document == document'
  {
    var p := Preimage(salt, document);
    assert p[..32] == salt && p[32..] == Utf8.Encode(document);
    assert p[..32] == salt' && p[32..] == Utf8.Encode(document');
    Utf8.Injective(document, document');
  }

  /** A seal binds its document: one fingerprint for two sealed documents means that salt and document
      agree, or that the two preimages collide. */
  lemma SealBinds(h: Bytes -> Word, salt: string, document: string, salt': string, document': string,
                  hashed: set<Bytes>)
    requires IsHex32(salt) && IsHex32(salt')
    requires ComputeFingerprint(h, salt, document) == ComputeFingerprint(h, salt', document')
    requires Preimage(FromHex(salt), document) in hashed && Preimage(FromHex(salt'), document') in hashed
    ensures (Lower(salt) == Lower(salt') && document == document') || CollisionIn(h, hashed)
  {
    var p, q := Preimage(FromHex(salt), document), Preimage(FromHex(salt'), document');
    HexWord(h(p));
    HexWord(h(q));
    assert h(p) == h(q);
    if p == q {
      PreimageInjective(FromHex(salt), document, FromHex(salt'), document');
      SameTextSameWord(salt, salt');
    }
  }

  /** WHAT IS HASHED. A fingerprint is the digest of the 32 bytes of the salt followed by the UTF-8 bytes of the
      document, a leaf the digest of the 32 bytes of a fingerprint; a malformed text has neither. */
  lemma SealIs(h: Bytes -> Word, salt: string, document: string)
    ensures IsHex32(salt) ==>
              ComputeFingerprint(h, salt, document) == Some(ToHex(h(FromHex(salt) + Utf8.Encode(document))))
    ensures IsHex32(salt) ==> ToLeaf(h, salt) == Some(h(FromHex(salt)))
    ensures !IsHex32(salt) ==> ComputeFingerprint(h, salt, document) == None && ToLeaf(h, salt) == None
  {
  }

  /** HEXADECIMAL, DIGIT BY DIGIT. The text of a word is 0x and two digits for each byte, the high one first. */
  lemma HexReads(w: Word, i: nat)
    requires i < 32
    ensures ToHex(w)[..2] == "0x"
    ensures ToHex(w)[2 + 2 * i] == "0123456789abcdef"[w[i] as int / 16]
    ensures ToHex(w)[3 + 2 * i] == "0123456789abcdef"[w[i] as int % 16]
  {
    HexByte(w, i);
    DigitIs(w[i] as int / 16);
    DigitIs(w[i] as int % 16);
  }

  lemma DigitIs(d: nat)
    requires d < 16
    ensures HexDigit(d) == "0123456789abcdef"[d]
  {
  }
}
