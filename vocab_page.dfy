/**
 * The vocabulary dashboard: creating an empty deck, the bulk import that turns
 * comma-separated lines into a deck of new cards, and the per-deck counts of
 * mastered and still-learning words.
 */
module VocabPage {
  import opened Optional
  import opened Text
  import opened Types
  import opened Seqs
  import opened Store

  /** `parts[i]?.trim() || dflt`: the i-th field trimmed, or the default when it is missing or blank. */
  function FieldOr(parts: seq<string>, i: nat, dflt: string): (r: string)
    ensures i < |parts| && Trim(parts[i]) != "" ==> r == Trim(parts[i])
    ensures i >= |parts| || Trim(parts[i]) == "" ==> r == dflt
  {
    if i < |parts| && Trim(parts[i]) != "" then Trim(parts[i]) else dflt
  }

  /**
   * One line of the import text, split on commas as Term, Meaning, Type, Example.
   * A line needs at least two fields, that is one comma; a missing or blank type
   * becomes "unknown".  Fields past the fourth are ignored.
   */
  function ParseLine(line: string): (r: Option<CardInput>)
    ensures r.None? <==> ',' !in line
    ensures r.Some? <==> |Split(line, ',')| >= 2
    ensures r.Some? ==>
      r.value.term == Trim(Split(line, ',')[0]) && r.value.definition == Trim(Split(line, ',')[1])
    ensures r.Some? ==> var p := Split(line, ',');
      (|p| > 2 && Trim(p[2]) != "" ==> r.value.wordType == Trim(p[2])) &&
      (|p| <= 2 || Trim(p[2]) == "" ==> r.value.wordType == "unknown")
    ensures r.Some? ==> var p := Split(line, ',');
      (|p| > 3 && Trim(p[3]) != "" ==> r.value.example == Trim(p[3])) &&
      (|p| <= 3 || Trim(p[3]) == "" ==> r.value.example == "")
    ensures r.Some? ==> r.value.wordType != "" && IsTrimmed(r.value.example)
    ensures r.Some? ==> r.value.pronunciation.None? && r.value.audio.None? &&
                        r.value.image.None? && r.value.lastReviewed.None?
  {
    var parts := Split(line, ',');
    SplitLength(line, ',');
    OccurrencesZero(line, ',');
    if |parts| < 2 then None
    else
      Some(CardInput(FieldOr(parts, 0, ""), FieldOr(parts, 1, ""), FieldOr(parts, 2, "unknown"),
                     FieldOr(parts, 3, ""), None, None, None, None))
  }

  /** `lines.map(parseLine).filter(c => c !== null)` */
  function ParsedCards(lines: seq<string>): (r: seq<CardInput>)
    ensures |r| <= |lines|
  {
    FilterMap(lines, ParseLine)
  }

  /** The cards of the import text, one per line that has a comma, in line order. */
  function ParseImport(text: string): seq<CardInput> {
    ParsedCards(Split(text, '\n'))
  }

  function HasComma(line: string): bool {
    ',' in line
  }

  /** Exactly the lines with a comma become cards. */
  lemma {:induction false} ParsedCardsCount(lines: seq<string>)
    ensures |ParsedCards(lines)| == |Filter(lines, HasComma)|
  {
    if |lines| > 0 {
      ParsedCardsCount(lines[..|lines| - 1]);
    }
  }

  /** The import keeps line order: parsing two blocks of lines is parsing each in turn. */
  lemma {:induction false} ParsedCardsConcat(a: seq<string>, b: seq<string>)
    ensures ParsedCards(a + b) == ParsedCards(a) + ParsedCards(b)
  {
    if |b| == 0 {
      assert a + b == a;
    } else {
      var b' := b[..|b| - 1];
      assert (a + b)[..|a + b| - 1] == a + b';
      assert (a + b)[|a + b| - 1] == b[|b| - 1];
      ParsedCardsConcat(a, b');
    }
  }

  /** A field that survives a CSV round trip: trimmed, with no comma and no line break. */
  predicate CsvField(s: string) {
    IsTrimmed(s) && ',' !in s && '\n' !in s
  }

  /** A card the import can produce: CSV fields, a non-empty type, no optional fields. */
  predicate Importable(c: CardInput) {
    CsvField(c.term) && CsvField(c.definition) && CsvField(c.wordType) && CsvField(c.example)
    && c.wordType != ""
    && c.pronunciation.None? && c.audio.None? && c.image.None? && c.lastReviewed.None?
  }

  /** The fields of a line in the placeholder's format: "Term, Meaning, Type, Example". */
  function CsvPieces(c: CardInput): seq<string> {
    [c.term, " " + c.definition, " " + c.wordType, " " + c.example]
  }

  function CsvLine(c: CardInput): string {
    Join(CsvPieces(c), ',')
  }

  /** A field after ", " trims back to itself. */
  lemma TrimAfterSpace(x: string)
    requires IsTrimmed(x)
    ensures Trim(" " + x) == x
  {
    TrimPadded(" ", x, []);
    assert " " + x + [] == " " + x;
  }

  /** The line splits back into exactly its four pieces. */
  lemma CsvLineSplits(c: CardInput)
    requires Importable(c)
    ensures Split(CsvLine(c), ',') == CsvPieces(c)
    ensures '\n' !in CsvLine(c)
  {
    var pieces := CsvPieces(c);
    assert forall k :: 0 <= k < |pieces| ==> ',' !in pieces[k] && '\n' !in pieces[k];
    SplitJoin(pieces, ',');
    JoinAvoids(pieces, ',', '\n');
  }

  /** Reading back a line written in the placeholder's format gives the card that was written. */
  lemma CsvLineRoundTrip(c: CardInput)
    requires Importable(c)
    ensures ParseLine(CsvLine(c)) == Some(c)
    ensures '\n' !in CsvLine(c)
  {
    CsvLineSplits(c);
    TrimPadded([], c.term, []);
    assert [] + c.term + [] == c.term;
    TrimAfterSpace(c.definition);
    TrimAfterSpace(c.wordType);
    TrimAfterSpace(c.example);
    var r := ParseLine(CsvLine(c));
    assert r.value == CardInput(c.term, c.definition, c.wordType, c.example, None, None, None, None);
  }

  function CsvLines(cs: seq<CardInput>): (r: seq<string>)
    ensures |r| == |cs|
  {
    seq(|cs|, i requires 0 <= i < |cs| => CsvLine(cs[i]))
  }

  lemma ParsedCsvLines(cs: seq<CardInput>)
    requires forall i :: 0 <= i < |cs| ==> Importable(cs[i])
    ensures ParsedCards(CsvLines(cs)) == cs
  {
    var lines := CsvLines(cs);
    forall i | 0 <= i < |lines| ensures ParseLine(lines[i]) == Some(cs[i]) {
      CsvLineRoundTrip(cs[i]);
    }
    FilterMapAll(lines, ParseLine, cs);
  }

  /** Importable cards written one per line are read back in the same order. */
  lemma ImportRoundTrip(cs: seq<CardInput>)
    requires forall i :: 0 <= i < |cs| ==> Importable(cs[i])
    ensures ParseImport(Join(CsvLines(cs), '\n')) == cs
  {
    if |cs| == 0 {
      assert Split("", '\n') == [""];
      assert ParseLine("") == None;
    } else {
      forall k | 0 <= k < |cs| ensures '\n' !in CsvLines(cs)[k] {
        CsvLineRoundTrip(cs[k]);
      }
      SplitJoin(CsvLines(cs), '\n');
      ParsedCsvLines(cs);
    }
  }

  function IsMastered(c: VocabCard): bool {
    c.status == Mastered
  }

  /** "{n} mastered" on a deck's card. */
  function MasteredCount(d: Deck): nat {
    |Filter(d.cards, IsMastered)|
  }

  /** The "Learning" figure: cards whose status is not mastered. */
  function LearningCount(d: Deck): nat {
    |Filter(d.cards, Not(IsMastered))|
  }

  /** The two figures on a deck's card add up to its word count. */
  lemma DeckCountsAddUp(d: Deck)
    ensures MasteredCount(d) + LearningCount(d) == |d.cards|
  {
    FilterComplement(d.cards, IsMastered);
  }

  /** A freshly imported deck has nothing mastered yet. */
  lemma ImportedDeckUnlearned(name: string, inputs: seq<CardInput>, deckId: string, cardIds: seq<string>)
    requires |cardIds| == |inputs|
    ensures MasteredCount(ImportedDeck(name, inputs, deckId, cardIds)) == 0
    ensures LearningCount(ImportedDeck(name, inputs, deckId, cardIds)) == |inputs|
  {
    var d := ImportedDeck(name, inputs, deckId, cardIds);
    forall i | 0 <= i < |d.cards| ensures Not(IsMastered)(d.cards[i]) {
      assert d.cards[i].status == New;
      assert Not(IsMastered)(d.cards[i]) == !IsMastered(d.cards[i]);
    }
    FilterAll(d.cards, Not(IsMastered));
    DeckCountsAddUp(d);
  }

  /** The Import button is disabled while either input is empty (not merely blank). */
  predicate ImportEnabled(deckName: string, text: string) {
    deckName != "" && text != ""
  }

  lemma DisabledImportIsBlank(deckName: string, text: string)
    requires !ImportEnabled(deckName, text)
    ensures IsBlank(deckName) || IsBlank(text)
  {
  }

  datatype Tab = View | Import

  /** The page's form state over the shared store. */
  class VocabDashboard {
    const store: Store
    var activeTab: Tab
    var newDeckName: string
    var importText: string

    constructor (store: Store)
      ensures this.store == store
      ensures activeTab == View && newDeckName == "" && importText == ""
    {
      this.store := store;
      activeTab, newDeckName, importText := View, "", "";
    }

    method SelectTab(t: Tab)
      modifies this
      ensures activeTab == t && newDeckName == old(newDeckName) && importText == old(importText)
    {
      activeTab := t;
    }

    method EditDeckName(s: string)
      modifies this
      ensures newDeckName == s && activeTab == old(activeTab) && importText == old(importText)
    {
      newDeckName := s;
    }

    method EditImportText(s: string)
      modifies this
      ensures importText == s && activeTab == old(activeTab) && newDeckName == old(newDeckName)
    {
      importText := s;
    }

    /** Submitting the new-deck form: a blank name does nothing; otherwise the deck is added and the field cleared. */
    method HandleCreateDeck(freshId: string)
      modifies this, store
      ensures IsBlank(old(newDeckName)) ==>
        store.State() == old(store.State()) && newDeckName == old(newDeckName)
      ensures !IsBlank(old(newDeckName)) ==>
        store.State() == old(store.State()).(decks := old(store.decks) + [Deck(freshId, old(newDeckName), None, [])])
        && newDeckName == ""
      ensures activeTab == old(activeTab) && importText == old(importText)
      ensures store.Valid() == old(store.Valid())
    {
      if IsBlank(newDeckName) {
        return;
      }
      store.AddDeck(newDeckName, freshId);
      newDeckName := "";
    }

    /**
     * The Import button: with a non-blank name and text, the parsed cards become a
     * new deck under the name as typed (untrimmed); the form is cleared and the
     * view tab shown.  `cardIds` are the fresh ids the store draws, one per card.
     */
    method HandleImport(deckId: string, cardIds: seq<string>)
      requires |cardIds| == |ParseImport(importText)|
      modifies this, store
      ensures IsBlank(old(newDeckName)) || IsBlank(old(importText)) ==>
        store.State() == old(store.State()) &&
        newDeckName == old(newDeckName) && importText == old(importText) && activeTab == old(activeTab)
      ensures !IsBlank(old(newDeckName)) && !IsBlank(old(importText)) ==>
        store.State() == old(store.State()).(decks := old(store.decks) +
          [ImportedDeck(old(newDeckName), ParseImport(old(importText)), deckId, cardIds)])
        && newDeckName == "" && importText == "" && activeTab == View
      ensures store.Valid() == old(store.Valid())
    {
      if IsBlank(newDeckName) || IsBlank(importText) {
        return;
      }
      var cards := ParseImport(importText);
      store.ImportDeck(newDeckName, cards, deckId, cardIds);
      newDeckName := "";
      importText := "";
      activeTab := View;
    }
  }
}
