/**
 * The records and enumerations of the study tracker.  Optional fields of the
 * TypeScript interfaces are `Option`s; the string unions are datatypes, so each
 * has exactly the values listed and no other.
 */
module Types {
  import opened Optional

  /** 'Database' | 'Skills' | 'Deploy' */
  datatype TaskPhase = Database | Skills | Deploy

  /** 'Vocab' | 'Grammar' | 'Trap/Trick' | 'Speed' | 'Pronunciation' | 'Other' */
  datatype ErrorType = Vocab | Grammar | TrapTrick | Speed | Pronunciation | Other

  /** 'new' | 'learning' | 'mastered' */
  datatype CardStatus = New | Learning | Mastered

  datatype Task = Task(id: string, title: string, completed: bool, phase: TaskPhase)

  /** `date` is an ISO timestamp; `totalScore` is fixed when the result is recorded. */
  datatype TestResult = TestResult(
    id: string, date: string, testName: string,
    listeningScore: int, readingScore: int, totalScore: int)

  /** `part` is documented to lie in 1..7 but nothing enforces it. */
  datatype BugLog = BugLog(
    id: string, testId: string, part: int, questionNum: int,
    errorType: ErrorType, rootCause: string, fix: string, reviewed: bool)

  /** `wordType` is the field the source calls `type` (n, v, adj, ...). */
  datatype VocabCard = VocabCard(
    id: string, term: string, definition: string, wordType: string, example: string,
    status: CardStatus,
    pronunciation: Option<string>, audio: Option<string>, image: Option<string>,
    lastReviewed: Option<string>)

  datatype Deck = Deck(id: string, name: string, image: Option<string>, cards: seq<VocabCard>)

  /** The persisted part of the store. */
  datatype UserState = UserState(
    goal: int, examDate: Option<string>,
    tasks: seq<Task>, results: seq<TestResult>, bugs: seq<BugLog>, decks: seq<Deck>)

  /** `Omit<TestResult, 'id' | 'totalScore'>`: what the caller of addResult supplies. */
  datatype ResultInput = ResultInput(date: string, testName: string, listeningScore: int, readingScore: int)

  /** `Omit<BugLog, 'id' | 'reviewed'>`. */
  datatype BugInput = BugInput(
    testId: string, part: int, questionNum: int,
    errorType: ErrorType, rootCause: string, fix: string)

  /** `Omit<VocabCard, 'id' | 'status'>`. */
  datatype CardInput = CardInput(
    term: string, definition: string, wordType: string, example: string,
    pronunciation: Option<string>, audio: Option<string>, image: Option<string>,
    lastReviewed: Option<string>)

  function TaskId(t: Task): string { t.id }
  function ResultId(r: TestResult): string { r.id }
  function BugId(b: BugLog): string { b.id }
  function DeckId(d: Deck): string { d.id }
  function CardId(c: VocabCard): string { c.id }

  /** The documented range of `BugLog.part`. */
  predicate ValidPart(part: int) {
    1 <= part <= 7
  }

  /** The part numbers the bug form offers in its select box. */
  const PartOptions: seq<int> := [1, 2, 3, 4, 5, 6, 7]

  /** The form offers exactly the documented parts. */
  lemma PartOptionsAreValidParts(part: int)
    ensures part in PartOptions <==> ValidPart(part)
  {
  }
}
