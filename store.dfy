/**
 * The client-side state store: the user's goal, exam date, tasks, test
 * results, bug log and vocabulary decks, with the actions that replace one of
 * those fields at a time.  Random ids and the current time are parameters.
 */
module Store {
  import opened Optional
  import opened Types
  import opened Text
  import opened Seqs

  /** A word of the bundled vocabulary file. */
  datatype RawVocabWord = RawVocabWord(
    id: string, term: string, wordType: string, meaning: string,
    pronunciation: Option<string>, example: Option<string>,
    audio: Option<string>, image: Option<string>)

  /** A lesson of the bundled vocabulary file; `words` may be missing. */
  datatype RawVocabLesson = RawVocabLesson(
    id: string, name: string, image: Option<string>, words: Option<seq<RawVocabWord>>)

  predicate IsParen(c: char) {
    c == '(' || c == ')'
  }

  function NotParen(c: char): bool {
    !IsParen(c)
  }

  /** normalizeType: drop every parenthesis, then trim; a missing type becomes "". */
  function NormalizeType(t: Option<string>): (r: string)
    ensures IsTrimmed(r)
    ensures forall k :: 0 <= k < |r| ==> !IsParen(r[k])
  {
    var stripped := Filter(t.GetOr(""), NotParen);
    var r := Trim(stripped);
    assert forall k :: 0 <= k < |r| ==> !IsParen(r[k]) by {
      forall k | 0 <= k < |r| ensures !IsParen(r[k]) {
        FilterMembers(t.GetOr(""), NotParen, r[k]);
      }
    }
    r
  }

  /** A label in parentheses normalises to the bare label, e.g. "(adj)" to "adj". */
  lemma NormalizeParenthesised(x: string)
    requires forall k :: 0 <= k < |x| ==> !IsParen(x[k])
    requires IsTrimmed(x)
    ensures NormalizeType(Some("(" + x + ")")) == x
  {
    FilterConcat("(" + x, ")", NotParen);
    FilterConcat("(", x, NotParen);
    FilterAll(x, NotParen);
    assert Filter("(", NotParen) == [] by {
      assert "("[..0] == [];
    }
    assert Filter(")", NotParen) == [] by {
      assert ")"[..0] == [];
    }
    assert [] + x + [] == x;
    TrimPadded([], x, []);
  }

  const AssetsPrefix: string := "assets/"

  predicate HasAssetsPrefix(s: string) {
    |s| >= |AssetsPrefix| && s[..|AssetsPrefix|] == AssetsPrefix
  }

  /** normalizeImage: a missing or empty path is dropped; a leading "assets/" becomes "/". */
  function NormalizeImage(path: Option<string>): (r: Option<string>)
    ensures r.None? <==> path.None? || path.value == ""
    ensures r.Some? ==> !HasAssetsPrefix(r.value)
    ensures r.Some? && HasAssetsPrefix(path.value) ==> r.value == "/" + path.value[|AssetsPrefix|..]
    ensures r.Some? && !HasAssetsPrefix(path.value) ==> r.value == path.value
  {
    if path.None? || path.value == "" then None
    else if HasAssetsPrefix(path.value) then
      var v := "/" + path.value[|AssetsPrefix|..];
      assert v[0] == '/' != AssetsPrefix[0];
      Some(v)
    else path
  }

  /** Normalising an image path twice is normalising it once. */
  lemma NormalizeImageIdempotent(path: Option<string>)
    ensures NormalizeImage(NormalizeImage(path)) == NormalizeImage(path)
  {
  }

  /** The default card built from a vocabulary word. */
  function CardFromWord(w: RawVocabWord): VocabCard {
    VocabCard(w.id, w.term, w.meaning, NormalizeType(Some(w.wordType)), w.example.GetOr(""),
              New, w.pronunciation, w.audio, w.image, None)
  }

  function WordsOf(l: RawVocabLesson): seq<RawVocabWord> {
    l.words.GetOr([])
  }

  function DeckFromLesson(l: RawVocabLesson): Deck {
    var ws := WordsOf(l);
    Deck(l.id, l.name, NormalizeImage(l.image), seq(|ws|, i requires 0 <= i < |ws| => CardFromWord(ws[i])))
  }

  /** buildDecksFromVocab: one deck per lesson, in lesson order, every card fresh. */
  function BuildDecks(lessons: seq<RawVocabLesson>): (r: seq<Deck>)
    ensures |r| == |lessons|
    ensures forall i :: 0 <= i < |r| ==>
      r[i].id == lessons[i].id && r[i].name == lessons[i].name &&
      r[i].image == NormalizeImage(lessons[i].image) &&
      |r[i].cards| == |WordsOf(lessons[i])|
    ensures forall i, j :: 0 <= i < |r| && 0 <= j < |r[i].cards| ==>
      var w, c := WordsOf(lessons[i])[j], r[i].cards[j];
      c.id == w.id && c.term == w.term && c.definition == w.meaning &&
      c.example == w.example.GetOr("") && c.status == New && c.lastReviewed == None &&
      c.wordType == NormalizeType(Some(w.wordType)) && IsTrimmed(c.wordType) &&
      c.pronunciation == w.pronunciation && c.audio == w.audio && c.image == w.image
  {
    seq(|lessons|, i requires 0 <= i < |lessons| => DeckFromLesson(lessons[i]))
  }

  predicate ScoreConsistent(r: TestResult) {
    r.totalScore == r.listeningScore + r.readingScore
  }

  /** Every recorded result's total is the sum of its two section scores. */
  predicate ScoresConsistent(rs: seq<TestResult>) {
    forall i :: 0 <= i < |rs| ==> ScoreConsistent(rs[i])
  }

  function InitialTasks(): seq<Task> {
    [ Task("1", "Memorize 20 TOEIC words", false, Database),
      Task("2", "Read 1 Grammar article", false, Database),
      Task("3", "Complete Part 5 practice", false, Skills) ]
  }

  /**
   * INITIAL_STATE, which the module computes once when it loads: `bootTime` is
   * the ISO time of that moment and `vocab` the bundled vocabulary file.
   */
  function InitialState(bootTime: string, vocab: seq<RawVocabLesson>): (s: UserState)
    ensures s.goal == 800 && s.examDate == None && s.bugs == []
    ensures |s.tasks| == 3 && forall i :: 0 <= i < |s.tasks| ==> !s.tasks[i].completed
    ensures s.tasks[0].phase == Database && s.tasks[1].phase == Database && s.tasks[2].phase == Skills
    ensures |s.results| == 1 && s.results[0].date == bootTime && ScoresConsistent(s.results)
    ensures s.results[0].id == "1" && s.results[0].testName == "Diagnostic Test"
    ensures s.results[0].listeningScore == 300 && s.results[0].readingScore == 250 &&
            s.results[0].totalScore == 550
    ensures s.decks == BuildDecks(vocab)
  {
    UserState(800, None, InitialTasks(),
              [TestResult("1", bootTime, "Diagnostic Test", 300, 250, 550)],
              [], BuildDecks(vocab))
  }

  function FlipCompleted(t: Task): Task {
    t.(completed := !t.completed)
  }

  /** toggleTask's new task list: only tasks with the id change, and only their flag. */
  function ToggledTasks(ts: seq<Task>, id: string): (r: seq<Task>)
    ensures |r| == |ts|
    ensures forall i :: 0 <= i < |ts| ==>
      r[i].id == ts[i].id && r[i].title == ts[i].title && r[i].phase == ts[i].phase &&
      r[i].completed == (if ts[i].id == id then !ts[i].completed else ts[i].completed)
  {
    UpdateWhere(ts, TaskId, id, FlipCompleted)
  }

  /** Toggling the same task twice restores the list. */
  lemma ToggledTasksTwice(ts: seq<Task>, id: string)
    ensures ToggledTasks(ToggledTasks(ts, id), id) == ts
  {
    var r := ToggledTasks(ToggledTasks(ts, id), id);
    assert forall i :: 0 <= i < |ts| ==> r[i] == ts[i];
  }

  function FlipReviewed(b: BugLog): BugLog {
    b.(reviewed := !b.reviewed)
  }

  /** toggleBugReview's new bug list: only bugs with the id change, and only their flag. */
  function ToggledBugs(bs: seq<BugLog>, id: string): (r: seq<BugLog>)
    ensures |r| == |bs|
    ensures forall i :: 0 <= i < |bs| && bs[i].id != id ==> r[i] == bs[i]
    ensures forall i :: 0 <= i < |bs| && bs[i].id == id ==> r[i] == bs[i].(reviewed := !bs[i].reviewed)
  {
    UpdateWhere(bs, BugId, id, FlipReviewed)
  }

  /** Toggling the same bug twice restores the list. */
  lemma ToggledBugsTwice(bs: seq<BugLog>, id: string)
    ensures ToggledBugs(ToggledBugs(bs, id), id) == bs
  {
    var r := ToggledBugs(ToggledBugs(bs, id), id);
    assert forall i :: 0 <= i < |bs| ==> r[i] == bs[i];
  }

  /** addResult's new record: the input's fields, a fresh id, and the total fixed now. */
  function NewResult(input: ResultInput, id: string): (r: TestResult)
    ensures ScoreConsistent(r)
    ensures r.id == id && r.date == input.date && r.testName == input.testName
    ensures r.listeningScore == input.listeningScore && r.readingScore == input.readingScore
  {
    TestResult(id, input.date, input.testName, input.listeningScore, input.readingScore,
               input.listeningScore + input.readingScore)
  }

  function NewBug(input: BugInput, id: string): BugLog {
    BugLog(id, input.testId, input.part, input.questionNum, input.errorType,
           input.rootCause, input.fix, false)
  }

  /** A card as addCardToDeck and importDeck create it: the input's fields, an id, status new. */
  function NewCard(input: CardInput, id: string): VocabCard {
    VocabCard(id, input.term, input.definition, input.wordType, input.example, New,
              input.pronunciation, input.audio, input.image, input.lastReviewed)
  }

  function AppendCard(c: VocabCard): Deck -> Deck {
    (d: Deck) => d.(cards := d.cards + [c])
  }

  /** addCardToDeck's new deck list: the matching deck gains one new card at its end. */
  function AddedCard(ds: seq<Deck>, deckId: string, input: CardInput, cardId: string): (r: seq<Deck>)
    ensures |r| == |ds|
    ensures forall i :: 0 <= i < |ds| && ds[i].id != deckId ==> r[i] == ds[i]
    ensures forall i :: 0 <= i < |ds| && ds[i].id == deckId ==>
      r[i].id == ds[i].id && r[i].name == ds[i].name && r[i].image == ds[i].image &&
      r[i].cards == ds[i].cards + [NewCard(input, cardId)] &&
      r[i].cards[|ds[i].cards|].status == New
  {
    UpdateWhere(ds, DeckId, deckId, AppendCard(NewCard(input, cardId)))
  }

  function Restatus(status: CardStatus, now: string): VocabCard -> VocabCard {
    (c: VocabCard) => c.(status := status, lastReviewed := Some(now))
  }

  function RestatusIn(cardId: string, status: CardStatus, now: string): Deck -> Deck {
    (d: Deck) => d.(cards := UpdateWhere(d.cards, CardId, cardId, Restatus(status, now)))
  }

  /**
   * updateCardStatus's new deck list: inside the deck with `deckId`, the card with
   * `cardId` gets the status and the review time; every other deck, every other card,
   * the order of cards and every other field stay as they were.
   */
  function StatusUpdated(ds: seq<Deck>, deckId: string, cardId: string, status: CardStatus, now: string)
    : (r: seq<Deck>)
    ensures |r| == |ds|
    ensures forall i :: 0 <= i < |ds| && ds[i].id != deckId ==> r[i] == ds[i]
    ensures forall i :: 0 <= i < |ds| && ds[i].id == deckId ==>
      r[i].id == ds[i].id && r[i].name == ds[i].name && r[i].image == ds[i].image &&
      |r[i].cards| == |ds[i].cards|
    ensures forall i, j :: 0 <= i < |ds| && ds[i].id == deckId && 0 <= j < |ds[i].cards| ==>
      var c, c' := ds[i].cards[j], r[i].cards[j];
      if c.id == cardId then c' == c.(status := status, lastReviewed := Some(now)) else c' == c
  {
    UpdateWhere(ds, DeckId, deckId, RestatusIn(cardId, status, now))
  }

  /** importDeck's new deck: one card per input, in input order, each with status new. */
  function ImportedDeck(name: string, inputs: seq<CardInput>, deckId: string, cardIds: seq<string>)
    : (d: Deck)
    requires |cardIds| == |inputs|
    ensures d.id == deckId && d.name == name && d.image == None
    ensures |d.cards| == |inputs|
    ensures forall i :: 0 <= i < |inputs| ==>
      d.cards[i].status == New && d.cards[i].id == cardIds[i] &&
      d.cards[i].term == inputs[i].term && d.cards[i].definition == inputs[i].definition &&
      d.cards[i].wordType == inputs[i].wordType && d.cards[i].example == inputs[i].example &&
      d.cards[i].pronunciation == inputs[i].pronunciation && d.cards[i].audio == inputs[i].audio &&
      d.cards[i].image == inputs[i].image && d.cards[i].lastReviewed == inputs[i].lastReviewed
  {
    Deck(deckId, name, None, seq(|inputs|, i requires 0 <= i < |inputs| => NewCard(inputs[i], cardIds[i])))
  }

  /** Deleting keeps the score invariant, since survivors are earlier results. */
  lemma {:induction false} WithoutKeepsScores(rs: seq<TestResult>, id: string)
    requires ScoresConsistent(rs)
    ensures ScoresConsistent(Without(rs, ResultId, id))
  {
    var r := Without(rs, ResultId, id);
    forall i | 0 <= i < |r| ensures ScoreConsistent(r[i]) {
      FilterMembers(rs, KeyIsNot(ResultId, id), r[i]);
    }
  }

  /** The store: one field per part of UserState, updated in place by the actions. */
  class Store {
    var goal: int
    var examDate: Option<string>
    var tasks: seq<Task>
    var results: seq<TestResult>
    var bugs: seq<BugLog>
    var decks: seq<Deck>
    /** INITIAL_STATE, fixed when the module loads. */
    const initial: UserState

    function State(): UserState
      reads this
    {
      UserState(goal, examDate, tasks, results, bugs, decks)
    }

    /** The store's invariant: every total, now and in INITIAL_STATE, is the sum of its two scores. */
    predicate Valid()
      reads this
    {
      ScoresConsistent(results) && ScoresConsistent(initial.results)
    }

    /** A store created with no persisted data starts from INITIAL_STATE. */
    constructor (bootTime: string, vocab: seq<RawVocabLesson>)
      ensures initial == InitialState(bootTime, vocab)
      ensures State() == initial && Valid()
    {
      initial := InitialState(bootTime, vocab);
      goal, examDate := 800, None;
      tasks := InitialTasks();
      results := [TestResult("1", bootTime, "Diagnostic Test", 300, 250, 550)];
      bugs := [];
      decks := BuildDecks(vocab);
    }

    method SetGoal(g: int)
      modifies this
      ensures State() == old(State()).(goal := g)
      ensures Valid() == old(Valid())
    {
      goal := g;
    }

    method SetExamDate(date: string)
      modifies this
      ensures State() == old(State()).(examDate := Some(date))
      ensures Valid() == old(Valid())
    {
      examDate := Some(date);
    }

    method AddTask(title: string, phase: TaskPhase, freshId: string)
      modifies this
      ensures State() == old(State()).(tasks := old(tasks) + [Task(freshId, title, false, phase)])
      ensures Valid() == old(Valid())
    {
      tasks := tasks + [Task(freshId, title, false, phase)];
    }

    method ToggleTask(id: string)
      modifies this
      ensures State() == old(State()).(tasks := ToggledTasks(old(tasks), id))
      ensures Valid() == old(Valid())
    {
      tasks := UpdateById(tasks, TaskId, id, FlipCompleted);
    }

    method DeleteTask(id: string)
      modifies this
      ensures State() == old(State()).(tasks := Without(old(tasks), TaskId, id))
      ensures Valid() == old(Valid())
    {
      tasks := RemoveById(tasks, TaskId, id);
    }

    method AddResult(input: ResultInput, freshId: string)
      modifies this
      ensures State() == old(State()).(results := old(results) + [NewResult(input, freshId)])
      ensures old(Valid()) ==> Valid()
    {
      results := results + [NewResult(input, freshId)];
    }

    method DeleteResult(id: string)
      modifies this
      ensures State() == old(State()).(results := Without(old(results), ResultId, id))
      ensures old(Valid()) ==> Valid()
    {
      if Valid() {
        WithoutKeepsScores(results, id);
      }
      results := RemoveById(results, ResultId, id);
    }

    method AddBug(input: BugInput, freshId: string)
      modifies this
      ensures State() == old(State()).(bugs := old(bugs) + [NewBug(input, freshId)])
      ensures Valid() == old(Valid())
    {
      bugs := bugs + [NewBug(input, freshId)];
    }

    method ToggleBugReview(id: string)
      modifies this
      ensures State() == old(State()).(bugs := ToggledBugs(old(bugs), id))
      ensures Valid() == old(Valid())
    {
      bugs := UpdateById(bugs, BugId, id, FlipReviewed);
    }

    method DeleteBug(id: string)
      modifies this
      ensures State() == old(State()).(bugs := Without(old(bugs), BugId, id))
      ensures Valid() == old(Valid())
    {
      bugs := RemoveById(bugs, BugId, id);
    }

    method AddDeck(name: string, freshId: string)
      modifies this
      ensures State() == old(State()).(decks := old(decks) + [Deck(freshId, name, None, [])])
      ensures Valid() == old(Valid())
    {
      decks := decks + [Deck(freshId, name, None, [])];
    }

    method DeleteDeck(id: string)
      modifies this
      ensures State() == old(State()).(decks := Without(old(decks), DeckId, id))
      ensures Valid() == old(Valid())
    {
      decks := RemoveById(decks, DeckId, id);
    }

    method AddCardToDeck(deckId: string, input: CardInput, freshId: string)
      modifies this
      ensures State() == old(State()).(decks := AddedCard(old(decks), deckId, input, freshId))
      ensures Valid() == old(Valid())
    {
      decks := UpdateById(decks, DeckId, deckId, AppendCard(NewCard(input, freshId)));
    }

    method UpdateCardStatus(deckId: string, cardId: string, status: CardStatus, now: string)
      modifies this
      ensures State() == old(State()).(decks := StatusUpdated(old(decks), deckId, cardId, status, now))
      ensures Valid() == old(Valid())
    {
      decks := UpdateById(decks, DeckId, deckId, RestatusIn(cardId, status, now));
    }

    method ImportDeck(name: string, inputs: seq<CardInput>, deckId: string, cardIds: seq<string>)
      requires |cardIds| == |inputs|
      modifies this
      ensures State() == old(State()).(decks := old(decks) + [ImportedDeck(name, inputs, deckId, cardIds)])
      ensures Valid() == old(Valid())
    {
      decks := decks + [ImportedDeck(name, inputs, deckId, cardIds)];
    }

    /** resetStore: back to INITIAL_STATE, whatever happened before. */
    method ResetStore()
      modifies this
      ensures State() == initial
      ensures old(Valid()) ==> Valid()
    {
      goal, examDate := initial.goal, initial.examDate;
      tasks, results, bugs, decks := initial.tasks, initial.results, initial.bugs, initial.decks;
    }
  }
}
