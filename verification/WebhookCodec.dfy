/** The signed serialisation of a webhook (src/mobile-money/mobile-money-webhook.service.ts): seven
    length-prefixed fields joined by a bar, and the decoder that inverts it on bytes. */
module WebhookCodec {
  import opened Basics
  import Utf8
  import Decimal

  /** The amount is in cents; `status` is the text of the enumeration. */
  datatype Payload = Payload(
    eventId: string, aggregatorReference: string, status: string, amount: int, currency: string,
    occurredAt: string, failureReason: Option<string>)

  function Fields(p: Payload): seq<string> {
    [p.eventId, p.aggregatorReference, p.status, Decimal.Fixed2(p.amount), p.currency, p.occurredAt,
     p.failureReason.GetOr("")]
  }

  /** `${Buffer.byteLength(value, 'utf8')}:${value}` */
  function Part(value: string): string {
    Decimal.Text(|Utf8.Encode(value)|) + ":" + value
  }

  function Render(fields: seq<string>): string
    requires fields != []
  {
    if |fields| == 1 then Part(fields[0]) else Part(fields[0]) + "|" + Render(fields[1..])
  }

  function CanonicalPayload(p: Payload): string {
    Render(Fields(p))
  }

  // ---------------------------------------------------------------------------------------------
  // The decoder
  // ---------------------------------------------------------------------------------------------

  const COLON: byte := 58
  const BAR: byte := 124

  /** Reads decimal digits up to a colon. */
  function ReadLength(b: Bytes, acc: nat): Option<(nat, Bytes)>
    decreases |b|
  {
    if b == [] then None
    else if b[0] == COLON then Some((acc, b[1..]))
    else if 48 <= b[0] <= 57 then ReadLength(b[1..], 10 * acc + (b[0] as int - 48))
    else None
  }

  function ReadField(b: Bytes): (r: Option<(Bytes, Bytes)>)
    ensures r.Some? ==> |r.value.1| < |b|
  {
    match ReadLength(b, 0)
    case None => None
    case Some((n, rest)) =>
      LengthShrinks(b, 0);
      if n <= |rest| then Some((rest[..n], rest[n..])) else None
  }

  lemma {:induction false} LengthShrinks(b: Bytes, acc: nat)
    ensures ReadLength(b, acc).Some? ==> |ReadLength(b, acc).value.1| < |b|
    decreases |b|
  {
    if b != [] && b[0] != COLON && 48 <= b[0] <= 57 {
      LengthShrinks(b[1..], 10 * acc + (b[0] as int - 48));
    }
  }

  function Decode(b: Bytes): Option<seq<Bytes>>
    decreases |b|
  {
    match ReadField(b)
    case None => None
    case Some((v, rest)) =>
      if rest == [] then Some([v])
      else if rest[0] != BAR then None
      else match Decode(rest[1..])
           case None => None
           case Some(vs) => Some([v] + vs)
  }

  // ---------------------------------------------------------------------------------------------
  // The decoder inverts the encoder
  // ---------------------------------------------------------------------------------------------

  /** The number a run of digit bytes adds to what was read before it. */
  function Accumulate(digits: Bytes, acc: nat): nat
    requires forall i :: 0 <= i < |digits| ==> 48 <= digits[i] <= 57
    decreases |digits|
  {
    if digits == [] then acc else Accumulate(digits[1..], 10 * acc + (digits[0] as int - 48))
  }

  lemma {:induction false} ReadDigits(digits: Bytes, rest: Bytes, acc: nat)
    requires forall i :: 0 <= i < |digits| ==> 48 <= digits[i] <= 57
    ensures ReadLength(digits + [COLON] + rest, acc) == Some((Accumulate(digits, acc), rest))
    decreases |digits|
  {
    var b := digits + [COLON] + rest;
    if digits == [] {
      assert b[1..] == rest;
    } else {
      assert b[1..] == digits[1..] + [COLON] + rest;
      ReadDigits(digits[1..], rest, 10 * acc + (digits[0] as int - 48));
    }
  }

  lemma {:induction false} AccumulateLast(digits: Bytes, d: byte, acc: nat)
    requires forall i :: 0 <= i < |digits| ==> 48 <= digits[i] <= 57
    requires 48 <= d <= 57
    ensures Accumulate(digits + [d], acc) == 10 * Accumulate(digits, acc) + (d as int - 48)
    decreases |digits|
  {
    if digits == [] {
      assert (digits + [d])[1..] == [];
    } else {
      assert (digits + [d])[1..] == digits[1..] + [d];
      AccumulateLast(digits[1..], d, 10 * acc + (digits[0] as int - 48));
    }
  }

  /** The bytes of a decimal text read back as its number. */
  lemma {:induction false} DecimalBytes(n: nat)
    ensures var b := Utf8.Encode(Decimal.Text(n));
            (forall i :: 0 <= i < |b| ==> 48 <= b[i] <= 57) && Accumulate(b, 0) == n
  {
    var t := Decimal.Text(n);
    Utf8.Ascii(t);
    var b := Utf8.Encode(t);
    forall i | 0 <= i < |b| ensures 48 <= b[i] <= 57 {
      assert Decimal.IsDigit(t[i]);
    }
    if n < 10 {
      assert b == [] + [(48 + n) as byte];
      AccumulateLast([], (48 + n) as byte, 0);
    } else {
      DecimalBytes(n / 10);
      Utf8.Concat(Decimal.Text(n / 10), [Decimal.DigitOf(n % 10)]);
      Utf8.Ascii([Decimal.DigitOf(n % 10)]);
      assert Utf8.Encode([Decimal.DigitOf(n % 10)]) == [(48 + n % 10) as byte];
      AccumulateLast(Utf8.Encode(Decimal.Text(n / 10)), (48 + n % 10) as byte, 0);
    }
  }

  /** One field: its length, a colon, its bytes. Whatever bytes the value holds, it comes back whole. */
  lemma FieldRoundTrip(value: string, rest: Bytes)
    ensures ReadField(Utf8.Encode(Part(value)) + rest) == Some((Utf8.Encode(value), rest))
  {
    var v := Utf8.Encode(value);
    var digits := Utf8.Encode(Decimal.Text(|v|));
    Utf8.Concat(Decimal.Text(|v|) + ":", value);
    Utf8.Concat(Decimal.Text(|v|), ":");
    Utf8.Ascii(":");
    assert Utf8.Encode(":") == [COLON];
    DecimalBytes(|v|);
    ReadDigits(digits, v + rest, 0);
    FieldShape(digits, v, rest);
  }

  lemma FieldShape(digits: Bytes, v: Bytes, rest: Bytes)
    ensures digits + [COLON] + v + rest == digits + [COLON] + (v + rest)
    ensures (v + rest)[..|v|] == v && (v + rest)[|v|..] == rest
  {
  }

  function Encoded(fields: seq<string>): seq<Bytes> {
    if fields == [] then [] else [Utf8.Encode(fields[0])] + Encoded(fields[1..])
  }

  lemma DecodeLast(value: string)
    ensures Decode(Utf8.Encode(Part(value))) == Some([Utf8.Encode(value)])
  {
    FieldRoundTrip(value, []);
    assert Utf8.Encode(Part(value)) + [] == Utf8.Encode(Part(value));
  }

  lemma DecodeMore(value: string, tail: string, fields: seq<Bytes>)
    requires Decode(Utf8.Encode(tail)) == Some(fields)
    ensures Decode(Utf8.Encode(Part(value) + "|" + tail)) == Some([Utf8.Encode(value)] + fields)
  {
    var t := Utf8.Encode(tail);
    Utf8.Concat(Part(value) + "|", tail);
    Utf8.Concat(Part(value), "|");
    Utf8.Ascii("|");
    assert Utf8.Encode("|") == [BAR];
    assert Utf8.Encode(Part(value) + "|" + tail) == Utf8.Encode(Part(value)) + ([BAR] + t);
    FieldRoundTrip(value, [BAR] + t);
    assert ([BAR] + t)[1..] == t;
  }

  /** ROUND TRIP. Any list of fields, separators and digits included, is recovered from its rendering. */
  lemma {:induction false} DecodeRender(fields: seq<string>)
    requires fields != []
    ensures Decode(Utf8.Encode(Render(fields))) == Some(Encoded(fields))
  {
    if |fields| == 1 {
      DecodeLast(fields[0]);
      assert Encoded(fields[1..]) == [];
      assert Encoded(fields) == [Utf8.Encode(fields[0])];
    } else {
      DecodeRender(fields[1..]);
      DecodeMore(fields[0], Render(fields[1..]), Encoded(fields[1..]));
    }
  }

  lemma {:induction false} EncodedInjective(a: seq<string>, b: seq<string>)
    requires Encoded(a) == Encoded(b)
    ensures a == b
  {
    if a != [] && b != [] {
      var x, y := Encoded(a), Encoded(b);
      assert x[0] == y[0] && x[1..] == Encoded(a[1..]) && y[1..] == Encoded(b[1..]);
      Utf8.Injective(a[0], b[0]);
      EncodedInjective(a[1..], b[1..]);
      assert a == [a[0]] + a[1..] && b == [b[0]] + b[1..];
    }
  }

  /** ONE SIGNATURE, ONE MEANING. Two payloads have one canonical text exactly when they agree on every
      field, an absent reason counting as an empty one. */
  lemma CanonicalInjective(p: Payload, q: Payload)
    ensures CanonicalPayload(p) == CanonicalPayload(q)
            <==> p.(failureReason := None) == q.(failureReason := None)
                 && p.failureReason.GetOr("") == q.failureReason.GetOr("")
  {
    if CanonicalPayload(p) == CanonicalPayload(q) {
      DecodeRender(Fields(p));
      DecodeRender(Fields(q));
      EncodedInjective(Fields(p), Fields(q));
      var a, b := Fields(p), Fields(q);
      assert a[0] == b[0] && a[1] == b[1] && a[2] == b[2] && a[3] == b[3] && a[4] == b[4] && a[5] == b[5]
             && a[6] == b[6];
      Decimal.Fixed2Injective(p.amount, q.amount);
    }
  }

  /** The number of bytes of a text, a colon, the text. */
  function Counted(s: string): string { Decimal.Text(|Utf8.Encode(s)|) + ":" + s }

  lemma RenderOne(x: string)
    ensures Render([x]) == Counted(x)
  {
  }

  lemma RenderCons(x: string, rest: seq<string>)
    requires rest != []
    ensures Render([x] + rest) == Counted(x) + "|" + Render(rest)
  {
    assert ([x] + rest)[1..] == rest;
  }

  lemma RenderFour(a: string, b: string, c: string, rest: seq<string>)
    requires rest != []
    ensures Render([a] + ([b] + ([c] + rest)))
            == Counted(a) + "|" + (Counted(b) + "|" + (Counted(c) + "|" + Render(rest)))
  {
    RenderCons(a, [b] + ([c] + rest));
    RenderCons(b, [c] + rest);
    RenderCons(c, rest);
  }

  /** THE SIGNED TEXT. Seven fields in this order, each behind the decimal number of its bytes and a colon, joined by
      bars; the amount with two decimals, an absent reason as an empty one. */
  lemma CanonicalText(p: Payload)
    ensures var reason := if p.failureReason.Some? then p.failureReason.value else "";
            CanonicalPayload(p)
            == Counted(p.eventId) + "|" + (Counted(p.aggregatorReference) + "|" + (Counted(p.status) + "|"
               + (Counted(Decimal.Fixed2(p.amount)) + "|" + (Counted(p.currency) + "|"
               + (Counted(p.occurredAt) + "|" + Counted(reason))))))
  {
    var reason := p.failureReason.GetOr("");
    var amount := Decimal.Fixed2(p.amount);
    RenderOne(reason);
    RenderFour(amount, p.currency, p.occurredAt, [reason]);
    RenderFour(p.eventId, p.aggregatorReference, p.status, [amount] + ([p.currency] + ([p.occurredAt] + [reason])));
    assert Fields(p) == [p.eventId] + ([p.aggregatorReference] + ([p.status]
                        + ([amount] + ([p.currency] + ([p.occurredAt] + [reason])))));
  }
}
