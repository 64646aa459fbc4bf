/** The canonical document of a fact, spelt out from the first line to the last, against the builder that lays it
    out. */
module EventText {
  import opened Basics
  import opened Domain
  import opened EventXml
  import Decimal

  // ---------------------------------------------------------------------------------------------
  // The document, spelt out
  // ---------------------------------------------------------------------------------------------

  /** One line of the document, or none. */
  datatype Piece =
    | Element(indent: string, name: string, value: string)
    | Opening(name: string) | Closing(indent: string, name: string)
    | Nothing

  function Show(p: Piece): string {
    match p
    case Element(indent, name, value) => "\n" + (indent + "<" + name + ">" + Escape(value) + "</" + name + ">")
    case Opening(name) => "\n" + ("  <" + name + ">")
    case Closing(indent, name) => "\n" + (indent + "</" + name + ">")
    case Nothing => ""
  }

  function ShowAll(pieces: seq<Piece>): string { if pieces == [] then "" else Show(pieces[0]) + ShowAll(pieces[1..]) }

  predicate Given(o: Option<string>) { o != None && o != Some("") }

  /** Left out when there is nothing to say. */
  function Optionally(indent: string, name: string, value: Option<string>): Piece {
    if Given(value) then Element(indent, name, value.value) else Nothing
  }

  function References(f: Facts): seq<Piece> {
    [Element("  ", "eventId", f.id), Element("  ", "eventType", TypeText(f.eventType)),
     Element("  ", "sequence", Decimal.IntText(f.sequence)),
     Element("  ", "transactionReference", f.transactionReference),
     Optionally("  ", "providerReference", f.providerReference), Optionally("  ", "bankReference", f.bankReference)]
  }

  function Standing(f: Facts): seq<Piece> {
    [Opening("statuses"),
     if f.providerStatus.Some? then Element("    ", "provider", ProviderText(f.providerStatus.value)) else Nothing,
     if f.bankStatus.Some? then Element("    ", "bank", BankText(f.bankStatus.value)) else Nothing,
     if f.reconciliationStatus.Some?
     then Element("    ", "reconciliation", ReconciliationText(f.reconciliationStatus.value)) else Nothing,
     if f.refundStatus.Some? then Element("    ", "refund", RefundText(f.refundStatus.value)) else Nothing,
     if f.caseStatus.Some? then Element("    ", "case", CaseText(f.caseStatus.value)) else Nothing,
     Closing("  ", "statuses")]
  }

  function Money(f: Facts): seq<Piece> {
    [Opening("amounts"), Element("    ", "expected", Decimal.Fixed2(f.expected)),
     Element("    ", "currency", f.currency),
     if f.observed.Some? then Element("    ", "observed", Decimal.Fixed2(f.observed.value)) else Nothing,
     Optionally("    ", "observedCurrency", f.observedCurrency), Closing("  ", "amounts")]
  }

  function Occasion(f: Facts): seq<Piece> {
    [Element("  ", "occurredAt", f.occurredAt), Element("  ", "correlationId", f.correlationId),
     Optionally("  ", "detail", f.detail)]
  }

  /** Only for a complete actor. */
  function Author(f: Facts): seq<Piece> {
    if Given(f.actorId) && Given(f.actorRole) && Given(f.actionOrigin) then
      [Opening("actor"), Element("    ", "actorId", f.actorId.value), Element("    ", "actorRole", f.actorRole.value),
       Element("    ", "actionOrigin", f.actionOrigin.value), Closing("  ", "actor")]
    else []
  }

  function Link(f: Facts): seq<Piece> { [Optionally("  ", "previousFingerprint", f.previousFingerprint)] }

  /** Only with a count and a head. */
  function Summary(f: Facts): seq<Piece> {
    if f.closureEventCount.Some? && Given(f.closureChainHead) then
      [Opening("closure"), Element("    ", "eventCount", Decimal.IntText(f.closureEventCount.value)),
       Element("    ", "chainHead", f.closureChainHead.value), Closing("  ", "closure")]
    else []
  }

  /** Only with both accounts. */
  function People(f: Facts): seq<Piece> {
    if Given(f.debtorIban) && Given(f.creditorIban) then
      [Opening("parties"), Element("    ", "debtorIban", f.debtorIban.value),
       Optionally("    ", "debtorName", f.debtorName), Element("    ", "creditorIban", f.creditorIban.value),
       Element("    ", "creditorName", if f.creditorName.Some? then f.creditorName.value else ""),
       Optionally("    ", "endToEndLabel", f.endToEndLabel), Closing("  ", "parties")]
    else []
  }

  function Whole(f: Facts): string {
    "<?xml version=\"1.0\" encoding=\"UTF-8\"?>" + "\n"
    + ("<TransactionEvent xmlns=\"urn:banking:event:1.0\" version=" + "\"" + f.version + "\">")
    + ShowAll(References(f) + (Standing(f) + (Money(f) + (Occasion(f) + (Author(f) + (Link(f) + (Summary(f)
              + (People(f) + [Closing("", "TransactionEvent")]))))))))
  }

  // ---------------------------------------------------------------------------------------------
  // The builder writes it
  // ---------------------------------------------------------------------------------------------

  /** What one slot of the layout adds. */
  function PieceOf(f: Facts, s: Slot): Piece {
    match s
    case At(t) =>
      if Field(f, t).Some? then Element(if Nested(t) then "    " else "  ", TagName(t), Field(f, t).value) else Nothing
    case Opens(b) => if HasBlock(f, b) then Opening(BlockName(b)) else Nothing
    case Closes(b) =>
      if HasBlock(f, b) then Closing(if b.Document? then "" else "  ", BlockName(b)) else Nothing
  }

  function Breaks(lines: seq<string>): string {
    if lines == [] then "" else "\n" + lines[0] + Breaks(lines[1..])
  }

  lemma {:induction false} JoinBreaks(x: string, lines: seq<string>)
    ensures Join([x] + lines) == x + Breaks(lines)
    decreases |lines|
  {
    var ls := [x] + lines;
    if lines == [] {
      assert ls == [x];
    } else {
      assert ls[1..] == lines && lines == [lines[0]] + lines[1..];
      JoinBreaks(lines[0], lines[1..]);
      Regroup(x, "\n", lines[0], Breaks(lines[1..]));
    }
  }

  lemma Regroup(a: string, b: string, c: string, d: string)
    ensures a + b + (c + d) == a + (b + c + d)
  {
  }

  function Tail(items: seq<Item>): string {
    if items == [] then "" else "\n" + Line(items[0]) + Tail(items[1..])
  }

  lemma {:induction false} TailBreaks(items: seq<Item>)
    ensures Tail(items) == Breaks(Lines(items))
  {
    if items != [] {
      assert Lines(items)[1..] == Lines(items[1..]);
      TailBreaks(items[1..]);
    }
  }

  lemma OneSlot(f: Facts, s: Slot)
    ensures Fill(f, [s]) == [] ==> PieceOf(f, s) == Nothing
    ensures Fill(f, [s]) != [] ==> |Fill(f, [s])| == 1 && "\n" + Line(Fill(f, [s])[0]) == Show(PieceOf(f, s))
  {
    assert [s][1..] == [];
    assert Fill(f, [s][1..]) == [];
  }

  lemma SlotTail(f: Facts, s: Slot, items: seq<Item>)
    ensures Tail(Fill(f, [s]) + items) == Show(PieceOf(f, s)) + Tail(items)
  {
    var a := Fill(f, [s]);
    OneSlot(f, s);
    if a == [] {
      assert a + items == items;
    } else {
      assert (a + items)[1..] == items && (a + items)[0] == a[0];
    }
  }

  lemma FillFirst(f: Facts, slots: seq<Slot>)
    requires slots != []
    ensures Fill(f, slots) == Fill(f, [slots[0]]) + Fill(f, slots[1..])
  {
    assert [slots[0]][1..] == [];
    assert Fill(f, [slots[0]][1..]) == [];
  }

  function Spell(f: Facts, slots: seq<Slot>): string
    decreases f, |slots|
  {
    if slots == [] then "" else Show(PieceOf(f, slots[0])) + Spell(f, slots[1..])
  }

  lemma {:induction false} SpellIsTail(f: Facts, slots: seq<Slot>)
    ensures Spell(f, slots) == Tail(Fill(f, slots))
    decreases |slots|
  {
    if slots != [] {
      SpellIsTail(f, slots[1..]);
      FillFirst(f, slots);
      SlotTail(f, slots[0], Fill(f, slots[1..]));
    }
  }

  /** Slots that add these pieces, one by one. */
  ghost predicate Adds(f: Facts, slots: seq<Slot>, pieces: seq<Piece>) {
    |slots| == |pieces| && forall i :: 0 <= i < |slots| ==> PieceOf(f, slots[i]) == pieces[i]
  }

  lemma {:induction false} AddsShow(f: Facts, slots: seq<Slot>, pieces: seq<Piece>)
    requires Adds(f, slots, pieces)
    ensures Spell(f, slots) == ShowAll(pieces)
    decreases |slots|
  {
    if slots != [] {
      AddsShow(f, slots[1..], pieces[1..]);
    }
  }

  lemma {:induction false} SpellAppend(f: Facts, a: seq<Slot>, b: seq<Slot>)
    ensures Spell(f, a + b) == Spell(f, a) + Spell(f, b)
    decreases |a|
  {
    if a == [] {
      assert a + b == b;
    } else {
      assert (a + b)[1..] == a[1..] + b;
      SpellAppend(f, a[1..], b);
    }
  }

  lemma {:induction false} ShowAppend(a: seq<Piece>, b: seq<Piece>)
    ensures ShowAll(a + b) == ShowAll(a) + ShowAll(b)
  {
    if a == [] {
      assert a + b == b;
    } else {
      assert (a + b)[1..] == a[1..] + b;
      ShowAppend(a[1..], b);
    }
  }

  lemma {:induction false} AddsNothing(f: Facts, slots: seq<Slot>)
    requires forall i :: 0 <= i < |slots| ==> PieceOf(f, slots[i]) == Nothing
    ensures Spell(f, slots) == ""
    decreases |slots|
  {
    if slots != [] {
      AddsNothing(f, slots[1..]);
    }
  }

  /** One section more. */
  lemma Section(f: Facts, slots: seq<Slot>, pieces: seq<Piece>, rest: seq<Slot>, more: seq<Piece>)
    requires Spell(f, slots) == ShowAll(pieces) && Spell(f, rest) == ShowAll(more)
    ensures Spell(f, slots + rest) == ShowAll(pieces + more)
  {
    SpellAppend(f, slots, rest);
    ShowAppend(pieces, more);
  }

  const REFERENCES_SLOTS: seq<Slot> := [
    At(TEventId), At(TEventType), At(TSequence), At(TTransactionReference), At(TProviderReference), At(TBankReference)]

  lemma ReferencesAdds1(f: Facts)
    ensures PieceOf(f, REFERENCES_SLOTS[0]) == References(f)[0]
    ensures PieceOf(f, REFERENCES_SLOTS[1]) == References(f)[1]
    ensures PieceOf(f, REFERENCES_SLOTS[2]) == References(f)[2]
  {
  }

  lemma ReferencesAdds2(f: Facts)
    ensures PieceOf(f, REFERENCES_SLOTS[3]) == References(f)[3]
    ensures PieceOf(f, REFERENCES_SLOTS[4]) == References(f)[4]
    ensures PieceOf(f, REFERENCES_SLOTS[5]) == References(f)[5]
  {
  }

  lemma ReferencesAdds(f: Facts)
    ensures Adds(f, REFERENCES_SLOTS, References(f))
  {
    ReferencesAdds1(f);
    ReferencesAdds2(f);
  }

  lemma ReferencesShown(f: Facts)
    ensures Spell(f, REFERENCES_SLOTS) == ShowAll(References(f))
  {
    ReferencesAdds(f);
    AddsShow(f, REFERENCES_SLOTS, References(f));
  }

  const STANDING_SLOTS: seq<Slot> := [
    Opens(Statuses), At(TProvider), At(TBank), At(TReconciliation), At(TRefund), At(TCase), Closes(Statuses)]

  lemma StandingAdds1(f: Facts)
    ensures |Standing(f)| == |STANDING_SLOTS|
    ensures PieceOf(f, STANDING_SLOTS[0]) == Standing(f)[0]
    ensures PieceOf(f, STANDING_SLOTS[1]) == Standing(f)[1]
    ensures PieceOf(f, STANDING_SLOTS[2]) == Standing(f)[2]
    ensures PieceOf(f, STANDING_SLOTS[3]) == Standing(f)[3]
  {
  }

  lemma StandingAdds2(f: Facts)
    ensures |Standing(f)| == |STANDING_SLOTS|
    ensures PieceOf(f, STANDING_SLOTS[4]) == Standing(f)[4]
    ensures PieceOf(f, STANDING_SLOTS[5]) == Standing(f)[5]
    ensures PieceOf(f, STANDING_SLOTS[6]) == Standing(f)[6]
  {
  }

  lemma StandingAdds(f: Facts)
    ensures Adds(f, STANDING_SLOTS, Standing(f))
  {
    StandingAdds1(f);
    StandingAdds2(f);
  }

  lemma StandingShown(f: Facts)
    ensures Spell(f, STANDING_SLOTS) == ShowAll(Standing(f))
  {
    StandingAdds(f);
    AddsShow(f, STANDING_SLOTS, Standing(f));
  }

  const MONEY_SLOTS: seq<Slot> := [
    Opens(Amounts), At(TExpected), At(TCurrency), At(TObserved), At(TObservedCurrency), Closes(Amounts)]

  lemma MoneyAdds(f: Facts)
    ensures Adds(f, MONEY_SLOTS, Money(f))
  {
  }

  lemma MoneyShown(f: Facts)
    ensures Spell(f, MONEY_SLOTS) == ShowAll(Money(f))
  {
    MoneyAdds(f);
    AddsShow(f, MONEY_SLOTS, Money(f));
  }

  const OCCASION_SLOTS: seq<Slot> := [At(TOccurredAt), At(TCorrelationId), At(TDetail)]

  lemma OccasionAdds(f: Facts)
    ensures Adds(f, OCCASION_SLOTS, Occasion(f))
  {
  }

  lemma OccasionShown(f: Facts)
    ensures Spell(f, OCCASION_SLOTS) == ShowAll(Occasion(f))
  {
    OccasionAdds(f);
    AddsShow(f, OCCASION_SLOTS, Occasion(f));
  }

  const AUTHOR_SLOTS: seq<Slot> := [Opens(Actor), At(TActorId), At(TActorRole), At(TActionOrigin), Closes(Actor)]

  lemma AuthorAdds(f: Facts)
    requires HasBlock(f, Actor)
    ensures Adds(f, AUTHOR_SLOTS, Author(f))
  {
  }

  lemma AuthorAddsNothing(f: Facts)
    requires !HasBlock(f, Actor)
    ensures Author(f) == []
    ensures forall i :: 0 <= i < |AUTHOR_SLOTS| ==> PieceOf(f, AUTHOR_SLOTS[i]) == Nothing
  {
  }

  lemma AuthorShown(f: Facts)
    ensures Spell(f, AUTHOR_SLOTS) == ShowAll(Author(f))
  {
    if HasBlock(f, Actor) {
      AuthorAdds(f);
      AddsShow(f, AUTHOR_SLOTS, Author(f));
    } else {
      AuthorAddsNothing(f);
      AddsNothing(f, AUTHOR_SLOTS);
    }
  }

  const LINK_SLOTS: seq<Slot> := [At(TPreviousFingerprint)]

  lemma LinkAdds(f: Facts)
    ensures Adds(f, LINK_SLOTS, Link(f))
  {
  }

  lemma LinkShown(f: Facts)
    ensures Spell(f, LINK_SLOTS) == ShowAll(Link(f))
  {
    LinkAdds(f);
    AddsShow(f, LINK_SLOTS, Link(f));
  }

  const SUMMARY_SLOTS: seq<Slot> := [Opens(Closure), At(TEventCount), At(TChainHead), Closes(Closure)]

  lemma SummaryAdds(f: Facts)
    requires HasBlock(f, Closure)
    ensures Adds(f, SUMMARY_SLOTS, Summary(f))
  {
  }

  lemma SummaryAddsNothing(f: Facts)
    requires !HasBlock(f, Closure)
    ensures Summary(f) == []
    ensures forall i :: 0 <= i < |SUMMARY_SLOTS| ==> PieceOf(f, SUMMARY_SLOTS[i]) == Nothing
  {
  }

  lemma SummaryShown(f: Facts)
    ensures Spell(f, SUMMARY_SLOTS) == ShowAll(Summary(f))
  {
    if HasBlock(f, Closure) {
      SummaryAdds(f);
      AddsShow(f, SUMMARY_SLOTS, Summary(f));
    } else {
      SummaryAddsNothing(f);
      AddsNothing(f, SUMMARY_SLOTS);
    }
  }

  const PEOPLE_SLOTS: seq<Slot> := [
    Opens(Parties), At(TDebtorIban), At(TDebtorName), At(TCreditorIban), At(TCreditorName), At(TEndToEndLabel),
      Closes(Parties)]

  lemma PeopleAdds1(f: Facts)
    requires HasBlock(f, Parties)
    ensures |People(f)| == |PEOPLE_SLOTS|
    ensures PieceOf(f, PEOPLE_SLOTS[0]) == People(f)[0]
    ensures PieceOf(f, PEOPLE_SLOTS[1]) == People(f)[1]
    ensures PieceOf(f, PEOPLE_SLOTS[2]) == People(f)[2]
  {
  }

  lemma PeopleAdds2(f: Facts)
    requires HasBlock(f, Parties)
    ensures |People(f)| == |PEOPLE_SLOTS|
    ensures PieceOf(f, PEOPLE_SLOTS[3]) == People(f)[3]
    ensures PieceOf(f, PEOPLE_SLOTS[4]) == People(f)[4]
  {
  }

  lemma PeopleAdds3(f: Facts)
    requires HasBlock(f, Parties)
    ensures |People(f)| == |PEOPLE_SLOTS|
    ensures PieceOf(f, PEOPLE_SLOTS[5]) == People(f)[5]
    ensures PieceOf(f, PEOPLE_SLOTS[6]) == People(f)[6]
  {
  }

  lemma PeopleAdds(f: Facts)
    requires HasBlock(f, Parties)
    ensures Adds(f, PEOPLE_SLOTS, People(f))
  {
    PeopleAdds1(f);
    PeopleAdds2(f);
    PeopleAdds3(f);
  }

  lemma PeopleAddsNothing(f: Facts)
    requires !HasBlock(f, Parties)
    ensures People(f) == []
    ensures forall i :: 0 <= i < |PEOPLE_SLOTS| ==> PieceOf(f, PEOPLE_SLOTS[i]) == Nothing
  {
  }

  lemma PeopleShown(f: Facts)
    ensures Spell(f, PEOPLE_SLOTS) == ShowAll(People(f))
  {
    if HasBlock(f, Parties) {
      PeopleAdds(f);
      AddsShow(f, PEOPLE_SLOTS, People(f));
    } else {
      PeopleAddsNothing(f);
      AddsNothing(f, PEOPLE_SLOTS);
    }
  }

  lemma LayoutIs()
    ensures LAYOUT == REFERENCES_SLOTS + (STANDING_SLOTS + (MONEY_SLOTS + (OCCASION_SLOTS + (AUTHOR_SLOTS
                      + (LINK_SLOTS + (SUMMARY_SLOTS + (PEOPLE_SLOTS + [Closes(Document)])))))))
  {
  }

  lemma LastShown(f: Facts, d: seq<Slot>, t: seq<Piece>)
    requires Spell(f, d) == ShowAll(t)
    ensures Spell(f, AUTHOR_SLOTS + (LINK_SLOTS + (SUMMARY_SLOTS + (PEOPLE_SLOTS + d))))
            == ShowAll(Author(f) + (Link(f) + (Summary(f) + (People(f) + t))))
  {
    PeopleShown(f);
    Section(f, PEOPLE_SLOTS, People(f), d, t);
    SummaryShown(f);
    Section(f, SUMMARY_SLOTS, Summary(f), PEOPLE_SLOTS + d, People(f) + t);
    LinkShown(f);
    Section(f, LINK_SLOTS, Link(f), SUMMARY_SLOTS + (PEOPLE_SLOTS + d), Summary(f) + (People(f) + t));
    AuthorShown(f);
    Section(f, AUTHOR_SLOTS, Author(f), LINK_SLOTS + (SUMMARY_SLOTS + (PEOPLE_SLOTS + d)),
            Link(f) + (Summary(f) + (People(f) + t)));
  }

  lemma FirstShown(f: Facts, d: seq<Slot>, t: seq<Piece>)
    requires Spell(f, d) == ShowAll(t)
    ensures Spell(f, REFERENCES_SLOTS + (STANDING_SLOTS + (MONEY_SLOTS + (OCCASION_SLOTS + d))))
            == ShowAll(References(f) + (Standing(f) + (Money(f) + (Occasion(f) + t))))
  {
    OccasionShown(f);
    Section(f, OCCASION_SLOTS, Occasion(f), d, t);
    MoneyShown(f);
    Section(f, MONEY_SLOTS, Money(f), OCCASION_SLOTS + d, Occasion(f) + t);
    StandingShown(f);
    Section(f, STANDING_SLOTS, Standing(f), MONEY_SLOTS + (OCCASION_SLOTS + d), Money(f) + (Occasion(f) + t));
    ReferencesShown(f);
    Section(f, REFERENCES_SLOTS, References(f), STANDING_SLOTS + (MONEY_SLOTS + (OCCASION_SLOTS + d)),
            Standing(f) + (Money(f) + (Occasion(f) + t)));
  }

  /** THE DOCUMENT, WORD FOR WORD. What the builder writes is that text: declaration, namespace and version, every
      element under its own name, in that order, indented so, and optional ones left out when empty. */
  lemma DocumentIs(f: Facts)
    ensures Build(f) == Whole(f)
  {
    HeadedBy(DECLARATION, ROOT + "\"" + f.version + "\">", Fill(f, LAYOUT));
    SpellIsTail(f, LAYOUT);
    LayoutShown(f, [Closes(Document)], [Closing("", "TransactionEvent")]);
  }

  lemma EndAdds(f: Facts)
    ensures Adds(f, [Closes(Document)], [Closing("", "TransactionEvent")])
  {
  }

  lemma LayoutShown(f: Facts, end: seq<Slot>, bound: seq<Piece>)
    requires end == [Closes(Document)] && bound == [Closing("", "TransactionEvent")]
    ensures Spell(f, LAYOUT)
            == ShowAll(References(f) + (Standing(f) + (Money(f) + (Occasion(f) + (Author(f) + (Link(f) + (Summary(f)
                       + (People(f) + bound))))))))
  {
    LayoutIs();
    EndAdds(f);
    AddsShow(f, end, bound);
    LastShown(f, end, bound);
    FirstShown(f, AUTHOR_SLOTS + (LINK_SLOTS + (SUMMARY_SLOTS + (PEOPLE_SLOTS + end))),
               Author(f) + (Link(f) + (Summary(f) + (People(f) + bound))));
  }

  lemma HeadedBy(first: string, root: string, items: seq<Item>)
    ensures Join([first, root] + Lines(items)) == first + "\n" + root + Tail(items)
  {
    assert ([first, root] + Lines(items))[1..] == [root] + Lines(items);
    JoinBreaks(root, Lines(items));
    TailBreaks(items);
    Regroup("", first + "\n", root, Tail(items));
  }

  /** The five entities, and nothing else, replace characters. */
  lemma Entities(c: char)
    ensures Escape("&") == "&amp;" && Escape("<") == "&lt;" && Escape(">") == "&gt;"
    ensures Escape("\"") == "&quot;" && Escape("'") == "&apos;"
    ensures c !in {'&', '<', '>', '"', '\''} ==> Escape([c]) == [c]
  {
    EscapeOne('&');
    EscapeOne('<');
    EscapeOne('>');
    EscapeOne('"');
    EscapeOne('\'');
    EscapeOne(c);
  }
}
