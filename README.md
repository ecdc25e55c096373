# TOEIC Master, modelled in Dafny

TOEIC Master is a client-side study tracker for the TOEIC exam. This project
models its core and proves properties of that model. The core consists of:

- the shared **store**: goal, exam date, daily tasks, test results, a bug log of
  wrong answers, and vocabulary decks, with the actions that change them;
- the **vocabulary page**: creating a deck, bulk import of comma-separated
  lines, and the mastered/learning counts;
- the **part-of-speech mapping** of the database conversion script, with its
  field defaults and its final sort;
- the **mock-test timer**: mode, running flag, seconds left, and the `h:mm:ss`
  clock;
- the **lessons page**: category filter, counts, total duration in `Xh Ym`
  form, and the expanded lesson;
- the **dashboard** stat cards;
- the **daily-sprint board**: the add-task form and the split into per-phase
  columns;
- the **flashcard**: flip, swipe and buttons that report a word as learning or
  mastered, and the choice between a recording and speech.

The modules follow the program's files:

| module | file | form |
|---|---|---|
| `Optional`, `Seqs` | `seqs.dfy` | `Option`; JavaScript's `filter` and `map` by id, with the loops behind them; a sort by key |
| `Text` | `text.dfy` | JavaScript's `trim`, `split`, `join` and `toLowerCase`; decimal printing and `parseInt` |
| `Types` | `types.dfy` | the enums and records of `src/types/index.ts` |
| `Store` | `store.dfy` | the normalisation helpers as functions; the store as a class with one field per part of the state |
| `ConvertDb` | `convert_db.dfy` | `mapType`, the word and lesson defaults, the sort by numeric id |
| `VocabPage` | `vocab_page.dfy` | the import parser as functions; the page state as a class |
| `MockPage` | `mock_page.dfy` | the clock format; the timer as a state function and a class |
| `LessonsPage` | `lessons_page.dfy` | the lesson table, filter, counts and durations; the page state as a class |
| `Dashboard` | `dashboard.dfy` | the stat cards, as functions |
| `DailyPage` | `daily_page.dfy` | the phase columns; the form as a class |
| `Flashcard` | `flashcard.dfy` | the swipe and audio decisions; the card as a class |

## How the model works

- **Ids and times.** Random ids (`crypto.randomUUID`) and the current time
  (`new Date().toISOString()`) are parameters: `freshId`, `cardIds`, `now` and
  `bootTime`.
- **Store actions.** Each action replaces one field of the `Store.Store` class.
  Each method's `ensures` gives the whole new state as a function of the old
  one. The delete and toggle actions run the loop methods `Seqs.RemoveById` and
  `Seqs.UpdateById`. These are proved equal to the functions `Seqs.Without` and
  `Seqs.UpdateWhere`.
- **The store invariant.** `Valid()` says that every result's total is its
  listening score plus its reading score. Every action keeps it.
- **`type` field.** A card's `type` field is named `wordType`, because `type` is
  a Dafny keyword.
- **JavaScript truthiness.** `x || d` and `x ?? d` are written out as cases.
  An empty string counts as absent wherever JavaScript treats it as falsy:
  - the import fields;
  - `w.PhienAm || ''` and `lesson.Lesson || ...`;
  - `if (card.audio)`.
- **The timer.** The timer's effect (`src/app/mock/page.tsx:15-25`) is one
  step. While the timer is active and time is left, a tick takes one second
  off. When a tick reaches 0, the timer stops in the same step.
- **Start/Pause at 0:0.** Pressing Start/Pause on a clock that reads 0 makes the
  effect stop the timer again at once. `MockPage.Toggled` therefore combines
  the toggle with that follow-up: at 0 the timer stays inactive.
- **The flashcard's delayed reports.** After a swipe, the flashcard reports only
  when a 300 ms timeout fires. Those reports are the `pending` queue, and
  `TimeoutElapsed` delivers the oldest one. The calls the card makes to its
  parent and to the speech engine are logs: `reports`, `prevRequests` and
  `spoken`.

## Model

| member | source | states |
|---|---|---|
| `Types.PartOptionsAreValidParts` | src/app/bugs/page.tsx:75 | the bug form offers exactly the parts 1..7 that `BugLog.part` is documented to hold |
| `Seqs.Filter` | src/lib/store.ts:116 | `filter` never produces more elements than its input |
| `Seqs.FilterMembers` | src/lib/store.ts:115-117 | an element survives a filter exactly when it was in the input and passes the predicate |
| `Seqs.FilterConcat` | src/lib/store.ts:127-129 | filtering distributes over concatenation, so survivors keep their relative order |
| `Seqs.FilterIndices` | src/app/daily/page.tsx:65 | a filter's result is its input read at strictly increasing positions, each passing the predicate |
| `Seqs.FilterComplement` | src/app/vocab/page.tsx:96-104 | the elements passing a predicate plus those failing it number as many as the input |
| `Seqs.FilterComplementMultiset` | src/app/vocab/page.tsx:96-104 | the same count, element by element, as multisets |
| `Seqs.FilterAll` | src/app/lessons/page.tsx:174-176 | a filter that every element passes returns its input unchanged |
| `Seqs.FilterNone` | src/app/lessons/page.tsx:174-176 | a filter that no element passes returns the empty list |
| `Seqs.FilterStep` | src/app/vocab/page.tsx:96 | one step of `filter`, stated on multisets |
| `Seqs.UpdateWhere` | src/lib/store.ts:109-113 | a map-by-id keeps the length, rewrites every element with the id, and leaves every other element as it was |
| `Seqs.CountKey` | src/lib/store.ts:145-147 | the number of elements carrying an id is zero exactly when none carries it |
| `Seqs.FilterMap` | src/app/vocab/page.tsx:35-44 | the present results of a map-then-drop-null never outnumber the input |
| `Seqs.FilterMapAll` | src/app/vocab/page.tsx:35-44 | when every element maps to a value, the result is exactly those values in order |
| `Seqs.WithoutCount` | src/lib/store.ts:145-147 | a delete by id loses exactly one element per element that carries the id |
| `Seqs.RemoveById` | src/lib/store.ts:153-155 | the delete loop returns exactly the elements whose id differs, in order |
| `Seqs.UpdateById` | src/lib/store.ts:139-143 | the map loop returns exactly the map-by-id of its input |
| `Seqs.InsertBy` | src/data/convert-db.js:81 | inserting into a list sorted by key gives a sorted list with one more copy of the element |
| `Seqs.InsertBehindHead` | src/data/convert-db.js:81 | the insertion step that keeps the smaller head in front keeps the list sorted and its elements |
| `Seqs.SortBy` | src/data/convert-db.js:81 | sorting by key gives a list in ascending key order that is a permutation of its input |
| `Text.Trim` | src/lib/store.ts:24 | `trim` leaves no outer white space, never lengthens, and is empty exactly for all-space input |
| `Text.TrimIdempotent` | src/data/convert-db.js:8 | trimming twice is trimming once |
| `Text.Split` | src/app/vocab/page.tsx:34-36 | `split` gives at least one piece, and no piece contains the separator |
| `Text.SplitLength` | src/app/vocab/page.tsx:36-37 | a line splits into one more piece than it has separators |
| `Text.JoinSplit` | src/app/vocab/page.tsx:34 | joining the pieces of a split with the separator gives back the text |
| `Text.SplitJoin` | src/app/vocab/page.tsx:34-36 | splitting a join of separator-free pieces gives back the pieces |
| `Text.ToLower` | src/data/convert-db.js:8 | `toLowerCase` keeps the length and lowers each (ASCII) letter in place |
| `Text.ToLowerTrim` | src/data/convert-db.js:8 | lower-casing and trimming commute |
| `Text.NatToStringValue` | src/app/mock/page.tsx:31 | the decimal digits printed for a number read back as that number |
| `Text.ParseIntOfIntToString` | src/data/convert-db.js:81 | `parseInt` of a printed integer followed by a non-digit gives back the integer |
| `Text.Pad2Value` | src/app/mock/page.tsx:31 | a zero-padded two-digit field reads back as its number |
| `Store.NormalizeType` | src/lib/store.ts:24 | normalizeType's result has no parentheses and no outer white space |
| `Store.NormalizeParenthesised` | src/lib/store.ts:24 | a trimmed, parenthesis-free label in parentheses normalises to the bare label |
| `Store.NormalizeImage` | src/lib/store.ts:26-30 | a missing or empty path stays missing; a leading `assets/` becomes `/`; other paths are kept |
| `Store.NormalizeImageIdempotent` | src/lib/store.ts:26-30 | normalising an image path twice is normalising it once |
| `Store.BuildDecks` | src/lib/store.ts:32-49 | one deck per lesson in lesson order with its id, name and normalised image; one card per word, with its id and term, `definition = meaning`, type `normalizeType(w.type)`, example defaulting to `''`, status new, and the word's pronunciation, audio and image copied |
| `Store.InitialState` | src/lib/store.ts:77-90 | goal 800, no exam date, no bugs; three open tasks, two in Database and one in Skills; one result `Diagnostic Test` with id 1, dated at boot time, scoring 300 + 250 = 550; decks built from the vocabulary |
| `Store.ToggledTasks` | src/lib/store.ts:109-113 | toggleTask flips `completed` on the tasks with the id only; other tasks and the order are unchanged |
| `Store.ToggledTasksTwice` | src/lib/store.ts:109-113 | toggling a task twice restores the list |
| `Store.ToggledBugs` | src/lib/store.ts:139-143 | toggleBugReview flips `reviewed` on the matching bug only |
| `Store.ToggledBugsTwice` | src/lib/store.ts:139-143 | toggling a bug twice restores the bug log |
| `Store.NewResult` | src/lib/store.ts:119-125 | the new result carries the input's fields and the fresh id, and its total is listening plus reading |
| `Store.AddedCard` | src/lib/store.ts:157-162 | addCardToDeck appends one new card to the matching deck only; other decks are unchanged |
| `Store.StatusUpdated` | src/lib/store.ts:164-169 | updateCardStatus sets status and review time on the matching card of the matching deck only; everything else, order included, is unchanged |
| `Store.ImportedDeck` | src/lib/store.ts:171-177 | importDeck's deck has the fresh id and the name; one card per input, in order, each new, with its fresh id and every field of the input (term, definition, type, example, pronunciation, audio, image, last review) copied |
| `Store.WithoutKeepsScores` | src/lib/store.ts:127-129 | deleting results keeps every remaining total equal to its section sum |
| `Store.Store.constructor` | src/lib/store.ts:77-95 | a fresh store holds INITIAL_STATE and satisfies the score invariant |
| `Store.Store.SetGoal` | src/lib/store.ts:97 | setGoal replaces the goal and nothing else |
| `Store.Store.SetExamDate` | src/lib/store.ts:98 | setExamDate replaces the exam date and nothing else |
| `Store.Store.AddTask` | src/lib/store.ts:100-107 | addTask appends one open task with the fresh id, title and phase; nothing else changes |
| `Store.Store.ToggleTask` | src/lib/store.ts:109-113 | the task list becomes its toggled list; nothing else changes |
| `Store.Store.DeleteTask` | src/lib/store.ts:115-117 | the task list loses exactly the tasks with the id |
| `Store.Store.AddResult` | src/lib/store.ts:119-125 | one consistent result is appended and the score invariant is kept |
| `Store.Store.DeleteResult` | src/lib/store.ts:127-129 | the results lose exactly those with the id and the score invariant is kept |
| `Store.Store.AddBug` | src/lib/store.ts:131-137 | addBug appends one bug with the input's fields, the fresh id and `reviewed = false` |
| `Store.Store.ToggleBugReview` | src/lib/store.ts:139-143 | the bug log becomes its toggled log; nothing else changes |
| `Store.Store.DeleteBug` | src/lib/store.ts:145-147 | the bug log loses exactly the bugs with the id |
| `Store.Store.AddDeck` | src/lib/store.ts:149-151 | one empty deck with the fresh id and the name is appended |
| `Store.Store.DeleteDeck` | src/lib/store.ts:153-155 | the decks lose exactly those with the id |
| `Store.Store.AddCardToDeck` | src/lib/store.ts:157-162 | the decks become their added-card list |
| `Store.Store.UpdateCardStatus` | src/lib/store.ts:164-169 | the decks become their status-updated list |
| `Store.Store.ImportDeck` | src/lib/store.ts:171-177 | one imported deck is appended |
| `Store.Store.ResetStore` | src/lib/store.ts:179 | the state becomes exactly INITIAL_STATE |
| `ConvertDb.NumericEntry` | src/data/convert-db.js:10-17 | a key is an own entry of `numericMap` exactly when it is one of `1` … `6`, and it names that part of speech |
| `ConvertDb.TextEntry` | src/data/convert-db.js:19-26 | a key is an own entry of `textMap` exactly when it is one of `n`, `v`, `adj`, `adv`, `prep`, `conj`, and it names that part of speech |
| `ConvertDb.MapKey` | src/data/convert-db.js:10-28 | the lookup gives one of the six labels or `''`; it is non-empty exactly for a key of either table, and a key of either table gives its part of speech's label |
| `ConvertDb.MapType` | src/data/convert-db.js:7-29 | the label is always one of `(n)` … `(conj)` or `''`; it is non-empty exactly when the trimmed, lower-cased code is a key of either table, and then it is that key's label |
| `ConvertDb.KeyOfTrimmed` | src/data/convert-db.js:8 | a code that is already trimmed is looked up lower-cased |
| `ConvertDb.MapTypeIgnoresSpace` | src/data/convert-db.js:8 | surrounding white space does not change the label |
| `ConvertDb.MapTypeIgnoresCase` | src/data/convert-db.js:8 | letter case does not change the label |
| `ConvertDb.MapTypeOfNumber` | src/data/convert-db.js:8-17 | a numeric code maps like its decimal string |
| `ConvertDb.KeyOfLowerCode` | src/data/convert-db.js:8 | a code whose text is already lower-case letters and digits is looked up as it is |
| `ConvertDb.NumericValue` | src/data/convert-db.js:10-17 | each `numericMap` key is the decimal text of the number 1..6 |
| `ConvertDb.MapTypeOfCodes` | src/data/convert-db.js:10-28 | both tables are consulted: a part of speech's number and its name both map to its label, e.g. 3 and `adj` to `(adj)` |
| `ConvertDb.NormalizeEmptyLabel` | src/lib/store.ts:24 | the empty label normalises to the empty type |
| `ConvertDb.NormalizeLabel` | src/lib/store.ts:24 | each part of speech's label normalises to its bare name |
| `ConvertDb.StoredTypeIsBareLabel` | src/data/convert-db.js:28 | normalizeType(mapType(x)) is always one of `n`, `v`, `adj`, `adv`, `prep`, `conj`, `''` |
| `ConvertDb.MapKeyAsWrittenLeaks` | src/data/convert-db.js:10-28 | as written, the keys `constructor` and `__proto__` return the inherited object member, while the corrected lookup gives `''` |
| `ConvertDb.MapTypeAsWrittenLeaks` | src/data/convert-db.js:7-28 | as written, any code normalising to `constructor` or `__proto__` returns an inherited object member instead of a label |
| `ConvertDb.ConstructorCodeLeaks` | src/data/convert-db.js:28 | the text code `constructor` leaks that member, while the corrected mapping gives `''` |
| `ConvertDb.MapKeyAsWrittenAgrees` | src/data/convert-db.js:10-28 | for every key other than those two names, the lookup as written gives the corrected label |
| `ConvertDb.MapTypeAsWrittenAgrees` | src/data/convert-db.js:7-28 | for every code not normalising to those names, mapType as written agrees with the corrected mapping |
| `ConvertDb.OrEmpty` | src/data/convert-db.js:65-66 | a missing pronunciation or example becomes `''` |
| `ConvertDb.ConvertWord` | src/data/convert-db.js:60-69 | a word keeps its term, meaning, audio and image, gets its printed id and the label `mapType(w.Type)`, and `''` for a missing pronunciation or example |
| `ConvertDb.LessonName` | src/data/convert-db.js:73 | a lesson keeps a non-empty name, and is otherwise called `Topic <id>` |
| `ConvertDb.ConvertLesson` | src/data/convert-db.js:71-76 | a lesson gets its printed id, its name rule, its image and one converted word per database word |
| `ConvertDb.NumericIdOfConverted` | src/data/convert-db.js:72-81 | parsing a converted lesson's id gives back the database id |
| `ConvertDb.ConvertAll` | src/data/convert-db.js:53-81 | the output is sorted by numeric id and is a permutation of the converted lessons |
| `ConvertDb.ConvertAllOrderedByDatabaseId` | src/data/convert-db.js:81 | the output's database ids ascend |
| `VocabPage.FieldOr` | src/app/vocab/page.tsx:39-42 | a field is the trimmed piece when that is non-empty, and the default otherwise |
| `VocabPage.ParseLine` | src/app/vocab/page.tsx:35-43 | a line gives a card exactly when it has a comma (two or more pieces); term and definition are the trimmed first two pieces; type is the trimmed third piece, or `unknown` when it is missing or blank; example is the trimmed fourth piece, or `''`; pieces past the fourth are ignored and no optional field is set |
| `VocabPage.ParsedCards` | src/app/vocab/page.tsx:34-44 | the import never yields more cards than lines |
| `VocabPage.ParsedCardsCount` | src/app/vocab/page.tsx:37-44 | the import yields one card per line that has a comma |
| `VocabPage.ParsedCardsConcat` | src/app/vocab/page.tsx:44 | cards keep the order of their lines |
| `VocabPage.TrimAfterSpace` | src/app/vocab/page.tsx:40-42 | a trimmed field after `, ` is read back unchanged |
| `VocabPage.CsvLineSplits` | src/app/vocab/page.tsx:36 | an importable card's CSV line splits into its four fields and has no line break |
| `VocabPage.CsvLineRoundTrip` | src/app/vocab/page.tsx:35-43 | a card written as `term, definition, type, example` parses back to itself |
| `VocabPage.CsvLines` | src/app/vocab/page.tsx:34 | one CSV line per card |
| `VocabPage.ParsedCsvLines` | src/app/vocab/page.tsx:34-44 | importable cards written one per line parse back to the same list |
| `VocabPage.ImportRoundTrip` | src/app/vocab/page.tsx:30-44 | importable cards joined by line breaks import as exactly those cards, in order |
| `VocabPage.DeckCountsAddUp` | src/app/vocab/page.tsx:96-104 | a deck's mastered count plus its learning count is its card count |
| `VocabPage.ImportedDeckUnlearned` | src/app/vocab/page.tsx:47 | a freshly imported deck has nothing mastered and every card learning |
| `VocabPage.DisabledImportIsBlank` | src/app/vocab/page.tsx:136 | when the Import button is disabled, the handler would do nothing as well |
| `VocabPage.VocabDashboard.constructor` | src/app/vocab/page.tsx:14-16 | the page opens on the deck list with empty fields |
| `VocabPage.VocabDashboard.SelectTab` | src/app/vocab/page.tsx:60 | choosing a tab changes only the tab |
| `VocabPage.VocabDashboard.EditDeckName` | src/app/vocab/page.tsx:124 | typing a name changes only the name |
| `VocabPage.VocabDashboard.EditImportText` | src/app/vocab/page.tsx:133 | typing CSV text changes only the text |
| `VocabPage.VocabDashboard.HandleCreateDeck` | src/app/vocab/page.tsx:23-28 | a blank name does nothing; otherwise one empty deck is added under the name and the field is cleared |
| `VocabPage.VocabDashboard.HandleImport` | src/app/vocab/page.tsx:30-51 | a blank name or text does nothing; otherwise the parsed cards become one new deck, the fields are cleared and the deck list is shown |
| `MockPage.Duration` | src/app/mock/page.tsx:37-41 | every mode has a positive duration |
| `MockPage.DurationsAreTheTestParts` | src/app/mock/page.tsx:38-40 | the full test is listening plus reading: 45 and 75 minutes |
| `MockPage.FormatTime` | src/app/mock/page.tsx:27-32 | the clock always shows a minutes:seconds separator |
| `MockPage.FormatTimeJoins` | src/app/mock/page.tsx:31 | the clock is an optional hour field, then two-digit minutes and seconds, joined by colons |
| `MockPage.ClockArith` | src/app/mock/page.tsx:28-30 | hours, minutes and seconds as computed put back together give the count |
| `MockPage.ClockFieldsDigits` | src/app/mock/page.tsx:31 | every clock field is a non-empty run of digits, so none holds a colon |
| `MockPage.ClockFieldsValues` | src/app/mock/page.tsx:28-31 | the fields read back as the hours (when shown), minutes and seconds they were written from |
| `MockPage.ParseClockFields` | src/app/mock/page.tsx:28-31 | a text splitting at colons into the clock's fields reads back as the count |
| `MockPage.FormatTimeRoundTrip` | src/app/mock/page.tsx:27-31 | reading the clock back as h*3600 + m*60 + s gives the seconds shown, and its minutes and seconds fields both read below 60 |
| `MockPage.Pad2Digits` | src/app/mock/page.tsx:31 | a field below 100, with its leading `0` under 10, is written as its tens and units digits |
| `MockPage.ClockCharacters` | src/app/mock/page.tsx:27-31 | from one to ten hours the clock is `h:mm:ss`, character by character |
| `MockPage.ShortClockCharacters` | src/app/mock/page.tsx:27-31 | below an hour the clock is `mm:ss`, with no hour field |
| `MockPage.FullModeClock` | src/app/mock/page.tsx:38 | a full test starts at `2:00:00` |
| `MockPage.ListeningModeClock` | src/app/mock/page.tsx:39 | a listening test starts at `45:00` |
| `MockPage.ReadingModeClock` | src/app/mock/page.tsx:40 | a reading test starts at `1:15:00` |
| `MockPage.WithMode` | src/app/mock/page.tsx:34-42 | setting a mode gives an inactive timer holding that mode's full time |
| `MockPage.TickedKeepsConsistent` | src/app/mock/page.tsx:15-25 | a tick takes one second off a running timer, leaves a stopped one alone, and keeps 0 <= timeLeft <= duration with no running timer at 0 |
| `MockPage.ToggledKeepsConsistent` | src/app/mock/page.tsx:78 | Start/Pause changes only the running flag: it runs afterwards exactly when it was stopped with time left |
| `MockPage.CountdownRunsOut` | src/app/mock/page.tsx:15-25 | n ticks of a running timer take n seconds off, and it stops exactly when it reaches 0 |
| `MockPage.StoppedStays` | src/app/mock/page.tsx:17-21 | ticks leave a stopped timer unchanged |
| `MockPage.ExamTimer.constructor` | src/app/mock/page.tsx:10-12 | the timer starts stopped, in full mode, at 7200 seconds |
| `MockPage.ExamTimer.SetTimerMode` | src/app/mock/page.tsx:34-42 | the timer stops and holds the new mode's full time |
| `MockPage.ExamTimer.Reset` | src/app/mock/page.tsx:82 | reset re-applies the current mode |
| `MockPage.ExamTimer.ToggleActive` | src/app/mock/page.tsx:78 | the timer takes its toggled state and stays consistent |
| `MockPage.ExamTimer.Tick` | src/app/mock/page.tsx:15-25 | the timer takes its ticked state and stays consistent |
| `LessonsPage.FilteredMembers` | src/app/lessons/page.tsx:174-176 | `all` shows every lesson; a category shows exactly the lessons of that category |
| `LessonsPage.FilteredKeepsOrder` | src/app/lessons/page.tsx:176 | the filtered lessons keep table order |
| `LessonsPage.CategoryCountsSum` | src/app/lessons/page.tsx:226-247 | every lesson has one category, so the four category counts sum to the lesson count |
| `LessonsPage.BlockFilters` | src/app/lessons/page.tsx:176 | a block of lessons of one category passes the filter whole or not at all |
| `LessonsPage.FilterFour` | src/app/lessons/page.tsx:176 | filtering four blocks in a row filters each block in turn |
| `LessonsPage.PickBlock` | src/app/lessons/page.tsx:176 | when only the chosen category's block survives, the joined results are that block |
| `LessonsPage.FourBlocksFilter` | src/app/lessons/page.tsx:176 | filtering four blocks of four different categories picks out the matching block |
| `LessonsPage.BlocksAreCategories` | src/app/lessons/page.tsx:23-160 | the table lists listening, reading, grammar and strategy lessons in four blocks |
| `LessonsPage.CatalogueByCategory` | src/app/lessons/page.tsx:23-176 | each category shows exactly its own block of the table |
| `LessonsPage.CatalogueCounts` | src/app/lessons/page.tsx:226-247 | the stat cards show 15 lessons: 4 listening, 5 reading, 3 grammar (and 3 strategy) |
| `LessonsPage.LeadingMinutesOfLabel` | src/app/lessons/page.tsx:261 | the leading number of `<k> min` is k |
| `LessonsPage.SumOrNaNOfNumbers` | src/app/lessons/page.tsx:260-263 | the reduce gives the sum when every duration starts with a number |
| `LessonsPage.SumOrNaNOfNaN` | src/app/lessons/page.tsx:260-263 | one duration without a leading number makes the total NaN |
| `LessonsPage.TotalDurationOfLabels` | src/app/lessons/page.tsx:260-263 | the total of lessons labelled `<k> min` is the sum of the ks |
| `LessonsPage.TotalDurationNaN` | src/app/lessons/page.tsx:261 | a lesson whose duration does not start with a number makes the total NaN |
| `LessonsPage.FormatDurationSplits` | src/app/lessons/page.tsx:264-266 | the display is `${h}h ${m}m` when h > 0 and `${m}m` otherwise, with h*60 + m = total and m < 60 |
| `LessonsPage.DigitsHaveNoSpace` | src/app/lessons/page.tsx:266 | printed numbers contain no space |
| `LessonsPage.UnitValueOf` | src/app/lessons/page.tsx:266 | a printed number followed by `h` or `m` reads back as the number |
| `LessonsPage.ParseHoursMinutes` | src/app/lessons/page.tsx:266 | the pieces `<h>h` and `<m>m` read back as h hours and m minutes |
| `LessonsPage.SplitHoursDisplay` | src/app/lessons/page.tsx:266 | `<h>h <m>m` splits at its one space into the hours piece and the minutes piece |
| `LessonsPage.HoursRoundTrip` | src/app/lessons/page.tsx:264-266 | a total of an hour or more reads back from its `<h>h <m>m` display |
| `LessonsPage.MinutesRoundTrip` | src/app/lessons/page.tsx:264-266 | a total under an hour reads back from its `<m>m` display |
| `LessonsPage.FormatDurationRoundTrip` | src/app/lessons/page.tsx:264-266 | reading the display back as h*60 + m gives the total |
| `LessonsPage.CountLabel` | src/app/lessons/page.tsx:291 | the label reads `lesson` exactly for one lesson, `lessons` otherwise |
| `LessonsPage.Clicked` | src/app/lessons/page.tsx:312 | clicking the expanded lesson collapses it, and clicking any other lesson makes it the only expanded one |
| `LessonsPage.ClickedTwice` | src/app/lessons/page.tsx:312 | two clicks on one lesson restore a collapsed view or that lesson's expansion, and collapse a view where another lesson was open |
| `LessonsPage.LessonsView.constructor` | src/app/lessons/page.tsx:163-164 | the page opens on all lessons with nothing expanded |
| `LessonsPage.LessonsView.SelectCategory` | src/app/lessons/page.tsx:211 | choosing a category leaves the expanded lesson alone |
| `LessonsPage.LessonsView.ClickLesson` | src/app/lessons/page.tsx:312 | a click updates the expanded lesson by the click rule |
| `Dashboard.LatestScore` | src/app/page.tsx:18 | the latest score is the last result's total, or 0 when there are no results |
| `Dashboard.LatestScoreIsSectionSum` | src/app/page.tsx:18 | with a consistent store, the latest score is the last test's listening plus reading |
| `Dashboard.LatestScoreAfterAdd` | src/app/page.tsx:18 | after addResult the latest score is the new test's listening plus reading |
| `Dashboard.ScoreGap` | src/app/page.tsx:19 | the gap plus the latest score is the goal |
| `Dashboard.CriticalBugs` | src/app/page.tsx:20 | the pending-bug count never exceeds the number of bugs |
| `Dashboard.NoCriticalBugs` | src/app/page.tsx:20 | the count is zero exactly when every bug is reviewed |
| `Dashboard.CriticalAndReviewed` | src/app/page.tsx:20 | pending bugs and reviewed bugs together are the whole log |
| `Dashboard.CriticalBugsAfterAdd` | src/app/page.tsx:20 | logging a bug raises the pending count by one |
| `Dashboard.GoalMessage` | src/app/page.tsx:53 | the caption is `Goal Reached!` exactly when the gap is not positive |
| `Dashboard.GoalMessageShowsGap` | src/app/page.tsx:53 | with a positive gap the caption starts with that gap in decimal |
| `DailyPage.PhasesAreAllPhases` | src/app/daily/page.tsx:30 | the board has one column for each phase and no column twice |
| `DailyPage.ColumnMembers` | src/app/daily/page.tsx:65 | a task shows in a column exactly when it is in the list and has that phase |
| `DailyPage.ExactlyOneColumn` | src/app/daily/page.tsx:30-65 | each task of the list shows in its own phase's column and in no other |
| `DailyPage.ColumnsPartition` | src/app/daily/page.tsx:30-65 | the three columns partition the task list, counted with multiplicity |
| `DailyPage.ColumnKeepsOrder` | src/app/daily/page.tsx:65 | within a column, tasks appear in store order |
| `DailyPage.ColumnAfterAdd` | src/app/daily/page.tsx:24 | a task added to the store shows at the bottom of its own column only |
| `DailyPage.ColumnsMultisetAfterAdd` | src/app/daily/page.tsx:24-65 | an added task is counted once more in the three columns together |
| `DailyPage.EmptyNoticeExactly` | src/app/daily/page.tsx:86 | the empty-column notice shows exactly when no task has that phase |
| `DailyPage.DailyView.constructor` | src/app/daily/page.tsx:14 | the form opens empty |
| `DailyPage.DailyView.EditTitle` | src/app/daily/page.tsx:51 | typing sets the title |
| `DailyPage.DailyView.HandleAddTask` | src/app/daily/page.tsx:21-26 | a blank title adds nothing; otherwise the title as typed becomes an open Skills task and the input is cleared |
| `Flashcard.DragDecision` | src/components/vocab/Flashcard.tsx:71-91 | a drag beyond 100 to the right reports mastered, beyond 100 to the left reports learning, and anything within [-100, 100] reports nothing |
| `Flashcard.DragDecisionMirrored` | src/components/vocab/Flashcard.tsx:74-82 | the mirrored drag gives the opposite report |
| `Flashcard.DragDecisionMonotone` | src/components/vocab/Flashcard.tsx:74-82 | a longer drag to the right never reports less |
| `Flashcard.ExitFor` | src/components/vocab/Flashcard.tsx:76-84 | a mastered swipe flies off at +1000, a learning swipe at -1000 |
| `Flashcard.AudioPlanFor` | src/components/vocab/Flashcard.tsx:40-59 | a card with a non-empty recording plays a file; otherwise the term is spoken |
| `Flashcard.AudioUrlNamesRecording` | src/components/vocab/Flashcard.tsx:41 | the file played is `/audio/words/<audio>.mp3` for the card's own recording |
| `Flashcard.FlashcardView.constructor` | src/components/vocab/Flashcard.tsx:20-24 | a card starts showing its front, at rest, silent, with nothing reported |
| `Flashcard.FlashcardView.Click` | src/components/vocab/Flashcard.tsx:125 | a click turns only an unturned card; afterwards it shows its back |
| `Flashcard.FlashcardView.DragEnd` | src/components/vocab/Flashcard.tsx:71-91 | only a turned card can be dragged; a swipe sends it off and schedules its report, and a short drag changes nothing |
| `Flashcard.FlashcardView.TimeoutElapsed` | src/components/vocab/Flashcard.tsx:77-89 | the oldest scheduled report is delivered, the card returns to 0 and shows its front |
| `Flashcard.FlashcardView.PreviousWord` | src/components/vocab/Flashcard.tsx:187-200 | the button acts only when canGoBack: the card turns back and the parent is asked for the previous word |
| `Flashcard.FlashcardView.ReportButton` | src/components/vocab/Flashcard.tsx:201-218 | a report button turns the card back and reports its status at once |
| `Flashcard.FlashcardView.NextWord` | src/components/vocab/Flashcard.tsx:201-209 | "Next Word" turns a turned card back and reports learning; an unturned card stays as it is; every other field is unchanged |
| `Flashcard.FlashcardView.KnowThis` | src/components/vocab/Flashcard.tsx:210-218 | "I Know This" turns a turned card back and reports mastered; an unturned card stays as it is; every other field is unchanged |
| `Flashcard.FlashcardView.PlayAudio` | src/components/vocab/Flashcard.tsx:28-60 | the icon starts the card's recording, or speaks the term when there is none |
| `Flashcard.FlashcardView.AudioEnded` | src/components/vocab/Flashcard.tsx:45 | the end of a recording clears the playing flag |
| `Flashcard.FlashcardView.AudioFailed` | src/components/vocab/Flashcard.tsx:46-54 | a recording that fails clears the playing flag and speaks the term instead |

## Left out

- Persistence of the store to `localStorage` (`src/lib/store.ts:181-185`): an opaque side effect.
- React rendering, markup, animation, styling and the `mounted` flags of every page.
  - This covers the "urgent" red clock below 300 seconds, the category heading, and the dashboard's fixed 90 days.
- The study-session cursor of the deck study page (`src/app/vocab/[id]/page.tsx`). That page is not part of this model.
- The SQLite queries, the callbacks, the `processedCount` counter, and the file output of the conversion script.
  - Its input arrives as a list of lessons, each paired with its words.
  - `ConvertDb.ConvertAll` inserts each lesson into a sorted list. This is not the in-place `Array.prototype.sort`. It proves the same result: ascending by id, a permutation of the lessons.
- The text-to-speech hook (`src/hooks/use-text-to-speech.ts`) and its `cancel()`. Speaking is recorded as a log of the texts handed over.
- Pausing the previous audio element is not modelled.
- The `setInterval` and `setTimeout` scheduling:
  - one timer tick is one step (`MockPage.Tick`);
  - one elapsed flashcard delay is one step (`Flashcard.FlashcardView.TimeoutElapsed`).
- `crypto.randomUUID()` and `new Date()`: both are parameters.
- The bug-log page's form and its `parseInt` of free text. Its state changes are the store's `addBug`, `toggleBugReview` and `deleteBug`.
- The chart, the sidebar, the layout and the Next.js configuration.
- Trimming and lower-casing cover ASCII letters and JavaScript's white-space set. Unicode case mapping is not modelled.
- `parseInt` reads a sign and decimal digits after leading white space. The `0x` prefix is not read.
- Numbers are unbounded integers; JavaScript's floating-point numbers are not modelled.
- `MockPage.FormatTime`: takes a non-negative whole number of seconds. The timer never shows anything else.
- `Flashcard.DragDecision`: the drag offset is a real number, not floating point.
- `Seqs.SortBy`: stability (lessons with equal ids keep their order) is not stated. Only the key order and the permutation are proved.
- `VocabPage.ParseLine`: the placeholder line `Contract, Hợp đồng, n, We signed the contract.` is not proved as a literal.
  - `VocabPage.CsvLineRoundTrip` covers that line's shape: four trimmed fields after `, `.
- `ConvertDb.MapTypeOfCodes`: a padded or upper-case literal such as `" ADJ "` is not proved on its own. `ConvertDb.MapTypeIgnoresSpace` and `ConvertDb.MapTypeIgnoresCase` extend it to those.
- `LessonsPage.TotalDurationOfLabels`: the page's per-category totals are not computed as literals. The lemma gives them for any lessons labelled `<k> min`.
- The Next/Previous/report buttons exist only on a turned card. On an unturned card the model's methods do nothing.

## Findings

| source | as written | input that shows it | evidently intended | confidence | as-written member | corrected member |
|---|---|---|---|---|---|---|
| src/data/convert-db.js:10-28 | the code is looked up in plain object literals, so inherited members of `Object.prototype` are found too | the code `"constructor"` (also `"__proto__"`) | only the six listed codes map to a label and every other code gives `''` | not executed | `ConvertDb.MapTypeAsWritten` / `ConvertDb.ConstructorCodeLeaks` | `ConvertDb.MapType` |

An inherited member is an object, and objects are truthy. So for `"constructor"`
the lookup as written returns the `Object` constructor, not one of the labels.
`ConvertDb.MapTypeAsWrittenAgrees` proves that every other code behaves as
intended. The lemmas about `ConvertDb.MapType`, which the rest of the model
uses, state the intended behaviour: `ConvertDb.StoredTypeIsBareLabel` and
`ConvertDb.MapTypeIgnoresSpace`.
