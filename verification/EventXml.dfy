/** The canonical document of src/events/transaction-event-xml.builder.ts: five escaping passes, a fixed
    layout, and the proof that a document determines the fact it serialises. */
module EventXml {
  import opened Basics
  import opened Domain
  import Decimal

  // ---------------------------------------------------------------------------------------------
  // Escaping
  // ---------------------------------------------------------------------------------------------

  /** `value.replace(/c/g, by)` for a one-character pattern. */
  function Replace(s: string, c: char, with: string): string {
    if s == "" then "" else (if s[0] == c then with else [s[0]]) + Replace(s[1..], c, with)
  }

  /** The five sequential passes of `escape`, ampersands first. */
  function Escape(s: string): string {
    Replace(Replace(Replace(Replace(Replace(s,
      '&', "&amp;"), '<', "&lt;"), '>', "&gt;"), '"', "&quot;"), '\'', "&apos;")
  }

  /** The entity of one character, or the character itself. */
  function Entity(c: char): (e: string)
    ensures e != ""
  {
    if c == '&' then "&amp;" else if c == '<' then "&lt;" else if c == '>' then "&gt;"
    else if c == '"' then "&quot;" else if c == '\'' then "&apos;" else [c]
  }

  function OnePass(s: string): string {
    if s == "" then "" else Entity(s[0]) + OnePass(s[1..])
  }

  /** Reads one entity or one plain character, and goes on. */
  function Unescape(s: string): string
    decreases |s|
  {
    if s == "" then ""
    else if s[0] != '&' then [s[0]] + Unescape(s[1..])
    else if "&amp;" <= s then "&" + Unescape(s[5..])
    else if "&lt;" <= s then "<" + Unescape(s[4..])
    else if "&gt;" <= s then ">" + Unescape(s[4..])
    else if "&quot;" <= s then "\"" + Unescape(s[6..])
    else if "&apos;" <= s then "'" + Unescape(s[6..])
    else s
  }

  lemma {:induction false} ReplaceConcat(s: string, t: string, c: char, with: string)
    ensures Replace(s + t, c, with) == Replace(s, c, with) + Replace(t, c, with)
  {
    if s == "" {
      assert s + t == t;
    } else {
      assert (s + t)[1..] == s[1..] + t;
      ReplaceConcat(s[1..], t, c, with);
      var head := if s[0] == c then with else [s[0]];
      assert head + (Replace(s[1..], c, with) + Replace(t, c, with))
             == (head + Replace(s[1..], c, with)) + Replace(t, c, with);
    }
  }

  lemma {:induction false} ReplaceAbsent(s: string, c: char, with: string)
    requires c !in s
    ensures Replace(s, c, with) == s
  {
    if s != "" {
      ReplaceAbsent(s[1..], c, with);
    }
  }

  lemma EscapeConcat(s: string, t: string)
    ensures Escape(s + t) == Escape(s) + Escape(t)
  {
    ReplaceConcat(s, t, '&', "&amp;");
    var s1, t1 := Replace(s, '&', "&amp;"), Replace(t, '&', "&amp;");
    ReplaceConcat(s1, t1, '<', "&lt;");
    var s2, t2 := Replace(s1, '<', "&lt;"), Replace(t1, '<', "&lt;");
    ReplaceConcat(s2, t2, '>', "&gt;");
    var s3, t3 := Replace(s2, '>', "&gt;"), Replace(t2, '>', "&gt;");
    ReplaceConcat(s3, t3, '"', "&quot;");
    ReplaceConcat(Replace(s3, '"', "&quot;"), Replace(t3, '"', "&quot;"), '\'', "&apos;");
  }

  /** Replacing in a text of one character. */
  lemma ReplaceOne(d: char, c: char, with: string)
    ensures Replace([d], c, with) == if d == c then with else [d]
  {
    assert [d][1..] == "";
  }

  /** The last three passes leave a text without their patterns as it is. */
  lemma LastPasses(s: string)
    requires '>' !in s && '"' !in s && '\'' !in s
    ensures Replace(Replace(Replace(s, '>', "&gt;"), '"', "&quot;"), '\'', "&apos;") == s
  {
    ReplaceAbsent(s, '>', "&gt;");
    ReplaceAbsent(s, '"', "&quot;");
    ReplaceAbsent(s, '\'', "&apos;");
  }

  /** All passes but the first. */
  lemma LaterPasses(s: string)
    requires '<' !in s && '>' !in s && '"' !in s && '\'' !in s
    ensures Replace(Replace(Replace(Replace(s, '<', "&lt;"), '>', "&gt;"), '"', "&quot;"), '\'', "&apos;") == s
  {
    ReplaceAbsent(s, '<', "&lt;");
    LastPasses(s);
  }

  lemma EscapeAmpersand(d: char, e: string)
    requires d == '&' && e == "&amp;"
    ensures Escape([d]) == e
  {
    ReplaceOne(d, '&', e);
    LaterPasses(e);
  }

  lemma EscapeLess()
    ensures Escape("<") == "&lt;"
  {
    ReplaceOne('<', '&', "&amp;");
    ReplaceOne('<', '<', "&lt;");
    LastPasses("&lt;");
  }

  lemma EscapeGreater()
    ensures Escape(">") == "&gt;"
  {
    ReplaceOne('>', '&', "&amp;");
    ReplaceOne('>', '<', "&lt;");
    ReplaceOne('>', '>', "&gt;");
    ReplaceAbsent("&gt;", '"', "&quot;");
    ReplaceAbsent("&gt;", '\'', "&apos;");
  }

  /** Any other character meets at most the last two passes. */
  lemma EscapeOther(d: char)
    requires d != '&' && d != '<' && d != '>'
    ensures Escape([d]) == Entity(d)
  {
    ReplaceOne(d, '&', "&amp;");
    ReplaceOne(d, '<', "&lt;");
    ReplaceOne(d, '>', "&gt;");
    ReplaceOne(d, '"', "&quot;");
    ReplaceOne(d, '\'', "&apos;");
    ReplaceAbsent("&quot;", '\'', "&apos;");
  }

  /** On one character the passes after its own change nothing: no entity holds a later pattern. */
  lemma EscapeOne(d: char)
    ensures Escape([d]) == Entity(d)
  {
    if d == '&' {
      EscapeAmpersand(d, "&amp;");
    } else if d == '<' {
      EscapeLess();
    } else if d == '>' {
      EscapeGreater();
    } else {
      EscapeOther(d);
    }
  }

  /** The five passes are one pass. */
  lemma {:induction false} FivePassesAreOne(s: string)
    ensures Escape(s) == OnePass(s)
  {
    if s != "" {
      assert s == [s[0]] + s[1..];
      EscapeConcat([s[0]], s[1..]);
      EscapeOne(s[0]);
      FivePassesAreOne(s[1..]);
    }
  }

  /** Two texts that differ early are not prefixes of each other, whatever follows. */
  lemma NotPrefix(p: string, e: string, rest: string, i: nat)
    requires i < |p| && i < |e| && p[i] != e[i]
    ensures !(p <= e + rest)
  {
    assert (e + rest)[i] == e[i];
  }

  lemma UnescapeEntity(d: char, rest: string)
    ensures Unescape(Entity(d) + rest) == [d] + Unescape(rest)
  {
    var e := Entity(d);
    assert e <= e + rest && (e + rest)[0] == e[0] && (e + rest)[|e|..] == rest;
    if d == '<' {
      NotPrefix("&amp;", e, rest, 1);
    } else if d == '>' {
      NotPrefix("&amp;", e, rest, 1);
      NotPrefix("&lt;", e, rest, 1);
    } else if d == '"' {
      NotPrefix("&amp;", e, rest, 1);
      NotPrefix("&lt;", e, rest, 1);
      NotPrefix("&gt;", e, rest, 1);
    } else if d == '\'' {
      NotPrefix("&amp;", e, rest, 2);
      NotPrefix("&lt;", e, rest, 1);
      NotPrefix("&gt;", e, rest, 1);
      NotPrefix("&quot;", e, rest, 1);
    }
  }

  predicate NoMarkup(s: string) { '<' !in s && '>' !in s && '"' !in s && '\'' !in s }

  lemma EntityNoMarkup(d: char)
    ensures NoMarkup(Entity(d))
  {
  }

  /** Escaped text has no markup character left, and unescaping gives the value back. */
  lemma {:induction false} EscapeInverted(s: string)
    ensures Unescape(Escape(s)) == s
    ensures NoMarkup(Escape(s))
  {
    FivePassesAreOne(s);
    if s != "" {
      EscapeInverted(s[1..]);
      FivePassesAreOne(s[1..]);
      UnescapeEntity(s[0], OnePass(s[1..]));
      EntityNoMarkup(s[0]);
      assert s == [s[0]] + s[1..];
    }
  }

  // ---------------------------------------------------------------------------------------------
  // Facts and their layout
  // ---------------------------------------------------------------------------------------------

  /** What a fingerprint covers. Amounts are in cents, dates are their ISO 8601 text. */
  datatype Facts = Facts(
    version: string,
    id: string, eventType: EventType, sequence: int, transactionReference: string,
    providerReference: Option<string>, bankReference: Option<string>,
    providerStatus: Option<ProviderStatus>, bankStatus: Option<BankStatus>,
    reconciliationStatus: Option<ReconciliationStatus>, refundStatus: Option<RefundStatus>,
    caseStatus: Option<CaseStatus>,
    expected: int, currency: string, observed: Option<int>, observedCurrency: Option<string>,
    occurredAt: string, correlationId: string, detail: Option<string>,
    actorId: Option<string>, actorRole: Option<string>, actionOrigin: Option<string>,
    previousFingerprint: Option<string>,
    closureEventCount: Option<int>, closureChainHead: Option<string>,
    debtorIban: Option<string>, debtorName: Option<string>,
    creditorIban: Option<string>, creditorName: Option<string>, endToEndLabel: Option<string>)

  datatype Tag =
    | TEventId | TEventType | TSequence | TTransactionReference | TProviderReference | TBankReference
    | TProvider | TBank | TReconciliation | TRefund | TCase
    | TExpected | TCurrency | TObserved | TObservedCurrency
    | TOccurredAt | TCorrelationId | TDetail
    | TActorId | TActorRole | TActionOrigin | TPreviousFingerprint
    | TEventCount | TChainHead
    | TDebtorIban | TDebtorName | TCreditorIban | TCreditorName | TEndToEndLabel

  datatype Block = Statuses | Amounts | Actor | Closure | Parties | Document

  datatype Item = Leaf(tag: Tag, value: string) | Begin(block: Block) | End(block: Block)

  function TagName(t: Tag): string {
    match t
    case TEventId => "eventId" case TEventType => "eventType" case TSequence => "sequence"
    case TTransactionReference => "transactionReference" case TProviderReference => "providerReference"
    case TBankReference => "bankReference" case TProvider => "provider" case TBank => "bank"
    case TReconciliation => "reconciliation" case TRefund => "refund" case TCase => "case"
    case TExpected => "expected" case TCurrency => "currency" case TObserved => "observed"
    case TObservedCurrency => "observedCurrency" case TOccurredAt => "occurredAt"
    case TCorrelationId => "correlationId" case TDetail => "detail" case TActorId => "actorId"
    case TActorRole => "actorRole" case TActionOrigin => "actionOrigin"
    case TPreviousFingerprint => "previousFingerprint" case TEventCount => "eventCount"
    case TChainHead => "chainHead" case TDebtorIban => "debtorIban" case TDebtorName => "debtorName"
    case TCreditorIban => "creditorIban" case TCreditorName => "creditorName"
    case TEndToEndLabel => "endToEndLabel"
  }

  function BlockName(b: Block): string {
    match b
    case Statuses => "statuses" case Amounts => "amounts" case Actor => "actor"
    case Closure => "closure" case Parties => "parties" case Document => "TransactionEvent"
  }

  predicate Nested(t: Tag) {
    t in {TProvider, TBank, TReconciliation, TRefund, TCase, TExpected, TCurrency, TObserved,
          TObservedCurrency, TActorId, TActorRole, TActionOrigin, TEventCount, TChainHead,
          TDebtorIban, TDebtorName, TCreditorIban, TCreditorName, TEndToEndLabel}
  }

  /** JavaScript truthiness of an optional text. */
  predicate Truthy(o: Option<string>) { o.Some? && o.value != "" }

  /** `optionalElement`: an absent or empty value emits nothing. */
  function Optional(o: Option<string>): Option<string> {
    if Truthy(o) then o else None
  }

  predicate HasBlock(f: Facts, b: Block) {
    match b
    case Actor => Truthy(f.actorId) && Truthy(f.actorRole) && Truthy(f.actionOrigin)
    case Closure => f.closureEventCount.Some? && Truthy(f.closureChainHead)
    case Parties => Truthy(f.debtorIban) && Truthy(f.creditorIban)
    case _ => true
  }

  function In(present: bool, o: Option<string>): Option<string> {
    if present then o else None
  }

  /** The text emitted under a tag, or None when the builder emits no such line. */
  function Field(f: Facts, t: Tag): Option<string> {
    match t
    case TEventId => Some(f.id)
    case TEventType => Some(TypeText(f.eventType))
    case TSequence => Some(Decimal.IntText(f.sequence))
    case TTransactionReference => Some(f.transactionReference)
    case TProviderReference => Optional(f.providerReference)
    case TBankReference => Optional(f.bankReference)
    case TProvider => if f.providerStatus.Some? then Some(ProviderText(f.providerStatus.value)) else None
    case TBank => if f.bankStatus.Some? then Some(BankText(f.bankStatus.value)) else None
    case TReconciliation =>
      if f.reconciliationStatus.Some? then Some(ReconciliationText(f.reconciliationStatus.value)) else None
    case TRefund => if f.refundStatus.Some? then Some(RefundText(f.refundStatus.value)) else None
    case TCase => if f.caseStatus.Some? then Some(CaseText(f.caseStatus.value)) else None
    case TExpected => Some(Decimal.Fixed2(f.expected))
    case TCurrency => Some(f.currency)
    case TObserved => if f.observed.Some? then Some(Decimal.Fixed2(f.observed.value)) else None
    case TObservedCurrency => Optional(f.observedCurrency)
    case TOccurredAt => Some(f.occurredAt)
    case TCorrelationId => Some(f.correlationId)
    case TDetail => Optional(f.detail)
    case TActorId => In(HasBlock(f, Actor), f.actorId)
    case TActorRole => In(HasBlock(f, Actor), f.actorRole)
    case TActionOrigin => In(HasBlock(f, Actor), f.actionOrigin)
    case TPreviousFingerprint => Optional(f.previousFingerprint)
    case TEventCount =>
      if HasBlock(f, Closure) then Some(Decimal.IntText(f.closureEventCount.value)) else None
    case TChainHead => In(HasBlock(f, Closure), f.closureChainHead)
    case TDebtorIban => In(HasBlock(f, Parties), f.debtorIban)
    case TDebtorName => In(HasBlock(f, Parties), Optional(f.debtorName))
    case TCreditorIban => In(HasBlock(f, Parties), f.creditorIban)
    case TCreditorName => In(HasBlock(f, Parties), Some(f.creditorName.GetOr("")))
    case TEndToEndLabel => In(HasBlock(f, Parties), Optional(f.endToEndLabel))
  }

  /** One slot of the layout: a possible element, or a block boundary. */
  datatype Slot = At(tag: Tag) | Opens(block: Block) | Closes(block: Block)

  const LAYOUT: seq<Slot> := [
    At(TEventId), At(TEventType), At(TSequence), At(TTransactionReference),
    At(TProviderReference), At(TBankReference),
    Opens(Statuses), At(TProvider), At(TBank), At(TReconciliation), At(TRefund), At(TCase), Closes(Statuses),
    Opens(Amounts), At(TExpected), At(TCurrency), At(TObserved), At(TObservedCurrency), Closes(Amounts),
    At(TOccurredAt), At(TCorrelationId), At(TDetail),
    Opens(Actor), At(TActorId), At(TActorRole), At(TActionOrigin), Closes(Actor),
    At(TPreviousFingerprint),
    Opens(Closure), At(TEventCount), At(TChainHead), Closes(Closure),
    Opens(Parties), At(TDebtorIban), At(TDebtorName), At(TCreditorIban), At(TCreditorName), At(TEndToEndLabel),
    Closes(Parties), Closes(Document)]

  /** The slots a fact fills, in order: null lines are filtered out. */
  function Fill(f: Facts, layout: seq<Slot>): seq<Item>
    decreases f, |layout|
  {
    if layout == [] then []
    else
      (match layout[0]
       case At(t) => if Field(f, t).Some? then [Leaf(t, Field(f, t).value)] else []
       case Opens(b) => if HasBlock(f, b) then [Begin(b)] else []
       case Closes(b) => if HasBlock(f, b) then [End(b)] else [])
      + Fill(f, layout[1..])
  }

  function Indent(i: Item): string {
    match i
    case Leaf(t, _) => if Nested(t) then "    " else "  "
    case Begin(_) => "  "
    case End(b) => if b.Document? then "" else "  "
  }

  function Line(i: Item): string {
    match i
    case Leaf(t, v) => Indent(i) + "<" + TagName(t) + ">" + Escape(v) + "</" + TagName(t) + ">"
    case Begin(b) => Indent(i) + "<" + BlockName(b) + ">"
    case End(b) => Indent(i) + "</" + BlockName(b) + ">"
  }

  function Lines(items: seq<Item>): seq<string> {
    seq(|items|, i requires 0 <= i < |items| => Line(items[i]))
  }

  /** `lines.join('\n')` */
  function Join(lines: seq<string>): string
    requires lines != []
  {
    if |lines| == 1 then lines[0] else lines[0] + "\n" + Join(lines[1..])
  }

  const DECLARATION := "<?xml version=\"1.0\" encoding=\"UTF-8\"?>"
  const ROOT := "<TransactionEvent xmlns=\"urn:banking:event:1.0\" version="

  /** `build` */
  function Build(f: Facts): string {
    Join([DECLARATION, ROOT + "\"" + f.version + "\">"] + Lines(Fill(f, LAYOUT)))
  }

  // ---------------------------------------------------------------------------------------------
  // A document determines its fact
  // ---------------------------------------------------------------------------------------------

  /** Every line ended by a newline. */
  function Text(items: seq<Item>): string {
    if items == [] then "" else Line(items[0]) + "\n" + Text(items[1..])
  }

  lemma {:induction false} JoinIsText(items: seq<Item>)
    requires items != []
    ensures Join(Lines(items)) + "\n" == Text(items)
  {
    var ls := Lines(items);
    assert ls[0] == Line(items[0]);
    if |items| == 1 {
      assert Text(items[1..]) == "";
      assert Text(items) == Line(items[0]) + "\n" + "" == Line(items[0]) + "\n";
    } else {
      JoinIsText(items[1..]);
      assert ls[1..] == Lines(items[1..]);
      Ended(ls[0], Join(ls[1..]));
    }
  }

  lemma Ended(line: string, rest: string)
    ensures line + "\n" + rest + "\n" == line + "\n" + (rest + "\n")
  {
  }

  /** The name between the angle brackets that open a line. */
  function NameOf(i: Item): string {
    match i
    case Leaf(t, _) => TagName(t)
    case Begin(b) => BlockName(b)
    case End(b) => "/" + BlockName(b)
  }

  /** What follows that name and its bracket. */
  function TailOf(i: Item): string {
    match i
    case Leaf(t, v) => Escape(v) + "</" + TagName(t) + ">"
    case _ => ""
  }

  /** Name, bracket, rest of the line: the common shape of the three kinds of line. */
  lemma LineParts(i: Item)
    ensures Line(i) == Indent(i) + "<" + (NameOf(i) + ">" + TailOf(i))
  {
    match i
    case Leaf(t, v) => LeafParts(Indent(i), TagName(t), Escape(v));
    case Begin(b) => BeginParts(Indent(i), BlockName(b));
    case End(b) => EndParts(Indent(i), BlockName(b));
  }

  lemma LeafParts(indent: string, name: string, value: string)
    ensures indent + "<" + name + ">" + value + "</" + name + ">"
            == indent + "<" + (name + ">" + (value + "</" + name + ">"))
  {
  }

  lemma BeginParts(indent: string, name: string)
    ensures indent + "<" + name + ">" == indent + "<" + (name + ">" + "")
  {
  }

  lemma EndParts(indent: string, name: string)
    ensures indent + "</" + name + ">" == indent + "<" + ("/" + name + ">" + "")
  {
  }

  lemma LineShape(i: Item, after: string)
    ensures Line(i) + "\n" + after
            == Indent(i) + ['<'] + (NameOf(i) + ['>'] + (TailOf(i) + "\n" + after))
  {
    LineParts(i);
    Regroup5(Indent(i) + "<", NameOf(i) + ">", TailOf(i), "\n", after);
  }

  lemma Regroup5(a: string, b: string, c: string, d: string, e: string)
    ensures a + (b + c) + d + e == a + (b + (c + d + e))
  {
  }

  /** Only the name of a closing line starts with a slash, and no name holds a bracket. */
  lemma NameShape(i: Item)
    ensures NameOf(i) != "" && (NameOf(i)[0] == '/' <==> i.End?) && '>' !in NameOf(i)
  {
    match i
    case Leaf(t, _) => TagNamePlain(t);
    case Begin(b) => BlockNamePlain(b);
    case End(b) => BlockNamePlain(b);
  }

  predicate Letter(c: char) { 'a' <= c <= 'z' || 'A' <= c <= 'Z' }

  /** Names are made of letters. */
  predicate Plain(s: string) { s != "" && forall i :: 0 <= i < |s| ==> Letter(s[i]) }

  lemma FirstNamesPlain(t: Tag)
    requires t in {TEventId, TEventType, TSequence, TTransactionReference, TProviderReference, TBankReference}
    ensures Plain(TagName(t))
  {
  }

  lemma SecondNamesPlain(t: Tag)
    requires t in {TProvider, TBank, TReconciliation, TRefund, TCase, TExpected}
    ensures Plain(TagName(t))
  {
  }

  lemma ThirdNamesPlain(t: Tag)
    requires t in {TCurrency, TObserved, TObservedCurrency, TOccurredAt, TCorrelationId, TDetail}
    ensures Plain(TagName(t))
  {
  }

  lemma FourthNamesPlain(t: Tag)
    requires t in {TActorId, TActorRole, TActionOrigin, TPreviousFingerprint, TEventCount, TChainHead}
    ensures Plain(TagName(t))
  {
  }

  lemma FifthNamesPlain(t: Tag)
    requires t in {TDebtorIban, TDebtorName, TCreditorIban, TCreditorName, TEndToEndLabel}
    ensures Plain(TagName(t))
  {
  }

  lemma TagNamePlain(t: Tag)
    ensures Plain(TagName(t))
  {
    if t in {TEventId, TEventType, TSequence, TTransactionReference, TProviderReference, TBankReference} {
      FirstNamesPlain(t);
    }
    if t in {TProvider, TBank, TReconciliation, TRefund, TCase, TExpected} { SecondNamesPlain(t); }
    if t in {TCurrency, TObserved, TObservedCurrency, TOccurredAt, TCorrelationId, TDetail} { ThirdNamesPlain(t); }
    if t in {TActorId, TActorRole, TActionOrigin, TPreviousFingerprint, TEventCount, TChainHead} {
      FourthNamesPlain(t);
    }
    if t in {TDebtorIban, TDebtorName, TCreditorIban, TCreditorName, TEndToEndLabel} { FifthNamesPlain(t); }
  }

  lemma BlockNamePlain(b: Block)
    ensures Plain(BlockName(b))
  {
  }

  /** What tells two names apart: their length, their first and their last letter. */
  datatype Key = Key(size: nat, first: char, last: char)

  function KeyOf(s: string): Key
    requires s != ""
  {
    Key(|s|, s[0], s[|s| - 1])
  }

  function TagKey(t: Tag): Key {
    match t
    case TEventId => Key(7, 'e', 'd') case TEventType => Key(9, 'e', 'e')
    case TSequence => Key(8, 's', 'e') case TTransactionReference => Key(20, 't', 'e')
    case TProviderReference => Key(17, 'p', 'e') case TBankReference => Key(13, 'b', 'e')
    case TProvider => Key(8, 'p', 'r') case TBank => Key(4, 'b', 'k')
    case TReconciliation => Key(14, 'r', 'n') case TRefund => Key(6, 'r', 'd')
    case TCase => Key(4, 'c', 'e') case TExpected => Key(8, 'e', 'd')
    case TCurrency => Key(8, 'c', 'y') case TObserved => Key(8, 'o', 'd')
    case TObservedCurrency => Key(16, 'o', 'y') case TOccurredAt => Key(10, 'o', 't')
    case TCorrelationId => Key(13, 'c', 'd') case TDetail => Key(6, 'd', 'l')
    case TActorId => Key(7, 'a', 'd') case TActorRole => Key(9, 'a', 'e')
    case TActionOrigin => Key(12, 'a', 'n') case TPreviousFingerprint => Key(19, 'p', 't')
    case TEventCount => Key(10, 'e', 't') case TChainHead => Key(9, 'c', 'd')
    case TDebtorIban => Key(10, 'd', 'n') case TDebtorName => Key(10, 'd', 'e')
    case TCreditorIban => Key(12, 'c', 'n') case TCreditorName => Key(12, 'c', 'e')
    case TEndToEndLabel => Key(13, 'e', 'l')
  }

  function BlockKey(b: Block): Key {
    match b
    case Statuses => Key(8, 's', 's') case Amounts => Key(7, 'a', 's')
    case Actor => Key(5, 'a', 'r') case Closure => Key(7, 'c', 'e')
    case Parties => Key(7, 'p', 's') case Document => Key(16, 'T', 't')
  }

  lemma FirstKeys(t: Tag)
    requires t in {TEventId, TEventType, TSequence, TTransactionReference, TProviderReference, TBankReference}
    ensures TagName(t) != "" && KeyOf(TagName(t)) == TagKey(t)
  {
  }

  lemma SecondKeys(t: Tag)
    requires t in {TProvider, TBank, TReconciliation, TRefund, TCase, TExpected}
    ensures TagName(t) != "" && KeyOf(TagName(t)) == TagKey(t)
  {
  }

  lemma ThirdKeys(t: Tag)
    requires t in {TCurrency, TObserved, TObservedCurrency, TOccurredAt, TCorrelationId, TDetail}
    ensures TagName(t) != "" && KeyOf(TagName(t)) == TagKey(t)
  {
  }

  lemma FourthKeys(t: Tag)
    requires t in {TActorId, TActorRole, TActionOrigin, TPreviousFingerprint, TEventCount, TChainHead}
    ensures TagName(t) != "" && KeyOf(TagName(t)) == TagKey(t)
  {
  }

  lemma FifthKeys(t: Tag)
    requires t in {TDebtorIban, TDebtorName, TCreditorIban, TCreditorName, TEndToEndLabel}
    ensures TagName(t) != "" && KeyOf(TagName(t)) == TagKey(t)
  {
  }

  lemma NameKey(t: Tag)
    ensures TagName(t) != "" && KeyOf(TagName(t)) == TagKey(t)
  {
    if t in {TEventId, TEventType, TSequence, TTransactionReference, TProviderReference, TBankReference} {
      FirstKeys(t);
    }
    if t in {TProvider, TBank, TReconciliation, TRefund, TCase, TExpected} { SecondKeys(t); }
    if t in {TCurrency, TObserved, TObservedCurrency, TOccurredAt, TCorrelationId, TDetail} { ThirdKeys(t); }
    if t in {TActorId, TActorRole, TActionOrigin, TPreviousFingerprint, TEventCount, TChainHead} { FourthKeys(t); }
    if t in {TDebtorIban, TDebtorName, TCreditorIban, TCreditorName, TEndToEndLabel} { FifthKeys(t); }
  }

  lemma BlockNameKey(b: Block)
    ensures BlockName(b) != "" && KeyOf(BlockName(b)) == BlockKey(b)
  {
  }

  lemma KeysDiffer(a: Tag, b: Tag)
    requires TagKey(a) == TagKey(b)
    ensures a == b
  {
  }

  lemma BlockKeysDiffer(t: Tag, b: Block)
    ensures TagKey(t) != BlockKey(b)
  {
  }

  lemma TagNameInjective(a: Tag, b: Tag)
    requires TagName(a) == TagName(b)
    ensures a == b
  {
    NameKey(a);
    NameKey(b);
    KeysDiffer(a, b);
  }

  lemma BlockNameInjective(a: Block, b: Block)
    requires BlockName(a) == BlockName(b)
    ensures a == b
  {
    assert BlockName(a)[0] == BlockName(b)[0] && BlockName(a)[1] == BlockName(b)[1];
  }

  lemma TagIsNoBlock(t: Tag, b: Block)
    ensures TagName(t) != BlockName(b)
  {
    NameKey(t);
    BlockNameKey(b);
    BlockKeysDiffer(t, b);
  }

  /** Items of one name are one item, up to the value of a leaf. */
  lemma SameName(a: Item, b: Item)
    requires NameOf(a) == NameOf(b)
    ensures match a
            case Leaf(t, _) => b.Leaf? && b.tag == t
            case Begin(k) => b == Begin(k)
            case End(k) => b == End(k)
  {
    NameShape(a);
    NameShape(b);
    match a
    case Leaf(t, _) =>
      if b.Leaf? { TagNameInjective(t, b.tag); } else { TagIsNoBlock(t, b.block); }
    case Begin(k) =>
      if b.Leaf? { TagIsNoBlock(b.tag, k); } else { BlockNameInjective(k, b.block); }
    case End(k) =>
      if b.End? {
        assert NameOf(a)[1..] == BlockName(k) && NameOf(b)[1..] == BlockName(b.block);
        BlockNameInjective(k, b.block);
      }
  }

  lemma TailShape(name: string, value: string, after: string)
    ensures value + "</" + name + ">" + "\n" + after == value + ['<'] + ("/" + name + ">\n" + after)
  {
  }

  lemma SplitTail(t: Tag, v: string, after: string, v': string, after': string)
    requires TailOf(Leaf(t, v)) + "\n" + after == TailOf(Leaf(t, v')) + "\n" + after'
    ensures v == v' && after == after'
  {
    var close := "/" + TagName(t) + ">\n";
    TailShape(TagName(t), Escape(v), after);
    TailShape(TagName(t), Escape(v'), after');
    EscapeInverted(v);
    EscapeInverted(v');
    SplitAtFirst(Escape(v), '<', close + after, Escape(v'), close + after');
    DropPrefix(close, after, after');
  }

  /** The first item of a text, and what is left after its line. */
  lemma FirstItem(a: Item, after: string, b: Item, after': string)
    requires Line(a) + "\n" + after == Line(b) + "\n" + after'
    ensures a == b && after == after'
  {
    LineShape(a, after);
    LineShape(b, after');
    NameShape(a);
    NameShape(b);
    SplitAtFirst(Indent(a), '<', NameOf(a) + ['>'] + (TailOf(a) + "\n" + after),
                 Indent(b), NameOf(b) + ['>'] + (TailOf(b) + "\n" + after'));
    SplitAtFirst(NameOf(a), '>', TailOf(a) + "\n" + after, NameOf(b), TailOf(b) + "\n" + after');
    SameName(a, b);
    if a.Leaf? {
      SplitTail(a.tag, a.value, after, b.value, after');
    } else {
      DropPrefix("" + "\n", after, after');
    }
  }

  lemma {:induction false} TextInjective(a: seq<Item>, b: seq<Item>)
    requires Text(a) == Text(b)
    ensures a == b
  {
    if a != [] && b != [] {
      FirstItem(a[0], Text(a[1..]), b[0], Text(b[1..]));
      TextInjective(a[1..], b[1..]);
      assert a == [a[0]] + a[1..] && b == [b[0]] + b[1..];
    }
  }

  /** The value of the first leaf under a tag. */
  function Lookup(items: seq<Item>, t: Tag): Option<string> {
    if items == [] then None
    else if items[0].Leaf? && items[0].tag == t then Some(items[0].value)
    else Lookup(items[1..], t)
  }

  lemma {:induction false} LookupFilled(f: Facts, layout: seq<Slot>, t: Tag)
    ensures Lookup(Fill(f, layout), t) == if At(t) in layout then Field(f, t) else None
  {
    if layout != [] {
      LookupFilled(f, layout[1..], t);
      var rest := Fill(f, layout[1..]);
      var head := Fill(f, layout);
      if head != rest {
        assert head[1..] == rest;
      }
    }
  }

  /** The place of a tag's slot in the layout. */
  function SlotOf(t: Tag): nat {
    match t
    case TEventId => 0 case TEventType => 1 case TSequence => 2 case TTransactionReference => 3
    case TProviderReference => 4
    case TBankReference => 5 case TProvider => 7 case TBank => 8 case TReconciliation => 9 case TRefund => 10
    case TCase => 11 case TExpected => 14 case TCurrency => 15 case TObserved => 16 case TObservedCurrency => 17
    case TOccurredAt => 19 case TCorrelationId => 20 case TDetail => 21 case TActorId => 23 case TActorRole => 24
    case TActionOrigin => 25 case TPreviousFingerprint => 27 case TEventCount => 29 case TChainHead => 30
    case TDebtorIban => 33
    case TDebtorName => 34 case TCreditorIban => 35 case TCreditorName => 36 case TEndToEndLabel => 37
  }

  lemma FirstSlots(t: Tag)
    requires t in {TEventId, TEventType, TSequence, TTransactionReference, TProviderReference, TBankReference}
    ensures SlotOf(t) < |LAYOUT| && LAYOUT[SlotOf(t)] == At(t)
  {
  }

  lemma SecondSlots(t: Tag)
    requires t in {TProvider, TBank, TReconciliation, TRefund, TCase, TExpected}
    ensures SlotOf(t) < |LAYOUT| && LAYOUT[SlotOf(t)] == At(t)
  {
  }

  lemma ThirdSlots(t: Tag)
    requires t in {TCurrency, TObserved, TObservedCurrency, TOccurredAt, TCorrelationId, TDetail}
    ensures SlotOf(t) < |LAYOUT| && LAYOUT[SlotOf(t)] == At(t)
  {
  }

  lemma FourthSlots(t: Tag)
    requires t in {TActorId, TActorRole, TActionOrigin, TPreviousFingerprint, TEventCount, TChainHead}
    ensures SlotOf(t) < |LAYOUT| && LAYOUT[SlotOf(t)] == At(t)
  {
  }

  lemma FifthSlots(t: Tag)
    requires t in {TDebtorIban, TDebtorName, TCreditorIban, TCreditorName, TEndToEndLabel}
    ensures SlotOf(t) < |LAYOUT| && LAYOUT[SlotOf(t)] == At(t)
  {
  }

  /** Every tag has its slot. */
  lemma LayoutComplete(t: Tag)
    ensures At(t) in LAYOUT
  {
    if t in {TEventId, TEventType, TSequence, TTransactionReference, TProviderReference, TBankReference} {
      FirstSlots(t);
    }
    if t in {TProvider, TBank, TReconciliation, TRefund, TCase, TExpected} { SecondSlots(t); }
    if t in {TCurrency, TObserved, TObservedCurrency, TOccurredAt, TCorrelationId, TDetail} { ThirdSlots(t); }
    if t in {TActorId, TActorRole, TActionOrigin, TPreviousFingerprint, TEventCount, TChainHead} { FourthSlots(t); }
    if t in {TDebtorIban, TDebtorName, TCreditorIban, TCreditorName, TEndToEndLabel} { FifthSlots(t); }
  }

  lemma {:induction false} NoQuote(items: seq<Item>)
    ensures '"' !in Text(items)
  {
    if items != [] {
      NoQuote(items[1..]);
      NoQuoteInLine(items[0]);
    }
  }

  lemma NoQuoteInLine(i: Item)
    ensures '"' !in Line(i)
  {
    match i
    case Leaf(t, v) =>
      EscapeInverted(v);
      TagNamePlain(t);
    case Begin(b) => BlockNamePlain(b);
    case End(b) => BlockNamePlain(b);
  }

  /** Two header lines and a body, as `Join` lays them out. */
  lemma JoinHeaders(first: string, second: string, lines: seq<string>)
    requires lines != []
    ensures Join([first, second] + lines) == first + "\n" + (second + "\n" + Join(lines))
  {
    var all := [first, second] + lines;
    assert all[1..][1..] == lines;
  }

  lemma BuildShape(f: Facts)
    ensures Build(f) + "\n"
            == (DECLARATION + "\n" + (ROOT + "\"") + f.version) + ['"'] + (">\n" + Text(Fill(f, LAYOUT)))
  {
    var items := Fill(f, LAYOUT);
    LayoutComplete(TEventId);
    LookupFilled(f, LAYOUT, TEventId);
    JoinIsText(items);
    JoinHeaders(DECLARATION, ROOT + "\"" + f.version + "\">", Lines(items));
    Headers(DECLARATION, ROOT + "\"", f.version, Join(Lines(items)));
  }

  lemma Headers(first: string, root: string, version: string, body: string)
    ensures first + "\n" + (root + version + "\">" + "\n" + body) + "\n"
            == (first + "\n" + root + version) + ['"'] + (">\n" + (body + "\n"))
  {
    assert root + version + "\">" + "\n" + body == root + version + ['"'] + (">\n" + body);
  }

  /** Equal documents carry one version and the same text under every tag. No assumption is made on the
      version, the one value the builder does not escape: after its closing quote no quote can follow. */
  lemma DocumentDeterminesFields(f: Facts, g: Facts)
    requires Build(f) == Build(g)
    ensures f.version == g.version
    ensures forall t :: Field(f, t) == Field(g, t)
  {
    BuildShape(f);
    BuildShape(g);
    var a, b := Fill(f, LAYOUT), Fill(g, LAYOUT);
    NoQuote(a);
    NoQuote(b);
    var head := DECLARATION + "\n" + (ROOT + "\"");
    SplitAtLast(head + f.version, '"', ">\n" + Text(a), head + g.version, ">\n" + Text(b));
    DropPrefix(head, f.version, g.version);
    DropPrefix(">\n", Text(a), Text(b));
    TextInjective(a, b);
    forall t ensures Field(f, t) == Field(g, t) {
      LookupFilled(f, LAYOUT, t);
      LookupFilled(g, LAYOUT, t);
      LayoutComplete(t);
    }
  }

  /** The fact as serialised: empty optional texts are absent, and so are incomplete actor, closure and
      parties blocks; inside the parties block an absent creditor name is an empty one. */
  function Canonical(f: Facts): Facts {
    f.(providerReference := Optional(f.providerReference),
       bankReference := Optional(f.bankReference),
       observedCurrency := Optional(f.observedCurrency),
       detail := Optional(f.detail),
       actorId := In(HasBlock(f, Actor), f.actorId),
       actorRole := In(HasBlock(f, Actor), f.actorRole),
       actionOrigin := In(HasBlock(f, Actor), f.actionOrigin),
       previousFingerprint := Optional(f.previousFingerprint),
       closureEventCount := if HasBlock(f, Closure) then f.closureEventCount else None,
       closureChainHead := In(HasBlock(f, Closure), f.closureChainHead),
       debtorIban := In(HasBlock(f, Parties), f.debtorIban),
       debtorName := In(HasBlock(f, Parties), Optional(f.debtorName)),
       creditorIban := In(HasBlock(f, Parties), f.creditorIban),
       creditorName := In(HasBlock(f, Parties), Some(f.creditorName.GetOr(""))),
       endToEndLabel := In(HasBlock(f, Parties), Optional(f.endToEndLabel)))
  }

  lemma ReferencesAgree(f: Facts, g: Facts)
    requires forall t :: Field(f, t) == Field(g, t)
    ensures var a, b := Canonical(f), Canonical(g);
            a.id == b.id
            && a.transactionReference == b.transactionReference
            && a.providerReference == b.providerReference
            && a.bankReference == b.bankReference
  {
    assert Field(f, TEventId) == Field(g, TEventId);
    assert Field(f, TTransactionReference) == Field(g, TTransactionReference);
    assert Field(f, TProviderReference) == Field(g, TProviderReference);
    assert Field(f, TBankReference) == Field(g, TBankReference);
  }

  lemma ContextAgrees(f: Facts, g: Facts)
    requires forall t :: Field(f, t) == Field(g, t)
    ensures var a, b := Canonical(f), Canonical(g);
            a.currency == b.currency
            && a.observedCurrency == b.observedCurrency
            && a.occurredAt == b.occurredAt
            && a.correlationId == b.correlationId
            && a.detail == b.detail
  {
    assert Field(f, TCurrency) == Field(g, TCurrency);
    assert Field(f, TObservedCurrency) == Field(g, TObservedCurrency);
    assert Field(f, TOccurredAt) == Field(g, TOccurredAt);
    assert Field(f, TCorrelationId) == Field(g, TCorrelationId);
    assert Field(f, TDetail) == Field(g, TDetail);
  }

  lemma ActorsAgree(f: Facts, g: Facts)
    requires forall t :: Field(f, t) == Field(g, t)
    ensures var a, b := Canonical(f), Canonical(g);
            a.actorId == b.actorId
            && a.actorRole == b.actorRole
            && a.actionOrigin == b.actionOrigin
  {
    assert Field(f, TActorId) == Field(g, TActorId);
    assert Field(f, TActorRole) == Field(g, TActorRole);
    assert Field(f, TActionOrigin) == Field(g, TActionOrigin);
  }

  lemma LinksAgree(f: Facts, g: Facts)
    requires forall t :: Field(f, t) == Field(g, t)
    ensures var a, b := Canonical(f), Canonical(g);
            a.previousFingerprint == b.previousFingerprint
            && a.closureChainHead == b.closureChainHead
  {
    assert Field(f, TPreviousFingerprint) == Field(g, TPreviousFingerprint);
    assert Field(f, TChainHead) == Field(g, TChainHead);
  }

  lemma IbansAgree(f: Facts, g: Facts)
    requires forall t :: Field(f, t) == Field(g, t)
    ensures var a, b := Canonical(f), Canonical(g);
            a.debtorIban == b.debtorIban
            && a.creditorIban == b.creditorIban
  {
    assert Field(f, TDebtorIban) == Field(g, TDebtorIban);
    assert Field(f, TCreditorIban) == Field(g, TCreditorIban);
  }

  lemma PartiesAgree(f: Facts, g: Facts)
    requires forall t :: Field(f, t) == Field(g, t)
    ensures var a, b := Canonical(f), Canonical(g);
            a.debtorName == b.debtorName
            && a.creditorName == b.creditorName
            && a.endToEndLabel == b.endToEndLabel
  {
    assert Field(f, TDebtorName) == Field(g, TDebtorName);
    assert Field(f, TCreditorName) == Field(g, TCreditorName);
    assert Field(f, TEndToEndLabel) == Field(g, TEndToEndLabel);
  }

  lemma AmountsAgree(f: Facts, g: Facts)
    requires forall t :: Field(f, t) == Field(g, t)
    ensures f.expected == g.expected && f.observed == g.observed
  {
    assert Field(f, TExpected) == Field(g, TExpected);
    Decimal.Fixed2Injective(f.expected, g.expected);
    assert Field(f, TObserved) == Field(g, TObserved);
    if f.observed.Some? { Decimal.Fixed2Injective(f.observed.value, g.observed.value); }
  }

  lemma RanksAgree(f: Facts, g: Facts)
    requires forall t :: Field(f, t) == Field(g, t)
    ensures f.sequence == g.sequence
    ensures Canonical(f).closureEventCount == Canonical(g).closureEventCount
  {
    assert Field(f, TSequence) == Field(g, TSequence);
    Decimal.IntTextInjective(f.sequence, g.sequence);
    assert Field(f, TEventCount) == Field(g, TEventCount);
    if HasBlock(f, Closure) { Decimal.IntTextInjective(f.closureEventCount.value, g.closureEventCount.value); }
  }

  lemma StatusesAgree(f: Facts, g: Facts)
    requires forall t :: Field(f, t) == Field(g, t)
    ensures f.eventType == g.eventType && f.providerStatus == g.providerStatus && f.bankStatus == g.bankStatus
    ensures f.reconciliationStatus == g.reconciliationStatus && f.refundStatus == g.refundStatus
    ensures f.caseStatus == g.caseStatus
  {
    assert Field(f, TEventType) == Field(g, TEventType);
    TypeTextInjective(f.eventType, g.eventType);
    assert Field(f, TProvider) == Field(g, TProvider);
    if f.providerStatus.Some? { ProviderTextInjective(f.providerStatus.value, g.providerStatus.value); }
    assert Field(f, TBank) == Field(g, TBank);
    if f.bankStatus.Some? { BankTextInjective(f.bankStatus.value, g.bankStatus.value); }
    assert Field(f, TReconciliation) == Field(g, TReconciliation);
    if f.reconciliationStatus.Some? {
      ReconciliationTextInjective(f.reconciliationStatus.value, g.reconciliationStatus.value);
    }
    assert Field(f, TRefund) == Field(g, TRefund);
    if f.refundStatus.Some? { RefundTextInjective(f.refundStatus.value, g.refundStatus.value); }
    assert Field(f, TCase) == Field(g, TCase);
    if f.caseStatus.Some? { CaseTextInjective(f.caseStatus.value, g.caseStatus.value); }
  }

  /** INJECTIVITY. Two facts have one document exactly when they agree on every serialised field, up to
      the collapses `Canonical` makes. */
  lemma DocumentInjective(f: Facts, g: Facts)
    ensures Build(f) == Build(g) <==> Canonical(f) == Canonical(g)
  {
    if Build(f) == Build(g) {
      DocumentDeterminesFields(f, g);
      ReferencesAgree(f, g);
      ContextAgrees(f, g);
      ActorsAgree(f, g);
      LinksAgree(f, g);
      IbansAgree(f, g);
      PartiesAgree(f, g);
      AmountsAgree(f, g);
      RanksAgree(f, g);
      StatusesAgree(f, g);
    }
    if Canonical(f) == Canonical(g) {
      forall t ensures Field(f, t) == Field(g, t) {
        FieldOfCanonical(f, t);
        FieldOfCanonical(g, t);
      }
      forall b ensures HasBlock(f, b) == HasBlock(g, b) {
        BlockOfCanonical(f, b);
        BlockOfCanonical(g, b);
      }
      SameFill(f, g, LAYOUT);
    }
  }

  lemma BlockOfCanonical(f: Facts, b: Block)
    ensures HasBlock(Canonical(f), b) == HasBlock(f, b)
  {
  }

  lemma FieldOfCanonical(f: Facts, t: Tag)
    ensures Field(Canonical(f), t) == Field(f, t)
  {
    BlockOfCanonical(f, Actor);
    BlockOfCanonical(f, Closure);
    BlockOfCanonical(f, Parties);
  }

  lemma {:induction false} SameFill(f: Facts, g: Facts, layout: seq<Slot>)
    requires forall t :: Field(f, t) == Field(g, t)
    requires forall b :: HasBlock(f, b) == HasBlock(g, b)
    ensures Fill(f, layout) == Fill(g, layout)
  {
    if layout != [] {
      SameFill(f, g, layout[1..]);
      match layout[0]
      case At(t) => assert Field(f, t) == Field(g, t);
      case Opens(b) => assert HasBlock(f, b) == HasBlock(g, b);
      case Closes(b) => assert HasBlock(f, b) == HasBlock(g, b);
    }
  }
}
