/**
 * The one-off script that turns the SQLite vocabulary database into the
 * bundled vocabulary file: the part-of-speech code table, the field defaults
 * for words and lessons, and the final ordering of lessons by numeric id.
 * The database reads and the file write are parameters and results here.
 */
module ConvertDb {
  import opened Optional
  import opened Text
  import opened Store

  /** The `Type` column as the database hands it over: NULL, a number, or text. */
  datatype RawCode = Null | Number(n: int) | Str(s: string)

  /** `(type ?? '').toString()` */
  function CodeString(c: RawCode): string {
    match c
    case Null => ""
    case Number(n) => IntToString(n)
    case Str(s) => s
  }

  /** The lookup key: `(type ?? '').toString().trim().toLowerCase()`. */
  function NormalizeCode(c: RawCode): string {
    ToLower(Trim(CodeString(c)))
  }

  /** The parts of speech the two tables know, in table order. */
  datatype PartOfSpeech = Noun | Verb | Adjective | Adverb | Preposition | Conjunction

  /** The bare name of a part of speech, which is also its key in `textMap`. */
  function Bare(p: PartOfSpeech): (b: string)
    ensures 0 < |b| <= 4 && forall i :: 0 <= i < |b| ==> 'a' <= b[i] <= 'z'
  {
    match p
    case Noun => "n"
    case Verb => "v"
    case Adjective => "adj"
    case Adverb => "adv"
    case Preposition => "prep"
    case Conjunction => "conj"
  }

  /** Its key in `numericMap`. */
  function NumericCode(p: PartOfSpeech): (c: string)
    ensures |c| == 1 && '1' <= c[0] <= '6'
  {
    match p
    case Noun => "1"
    case Verb => "2"
    case Adjective => "3"
    case Adverb => "4"
    case Preposition => "5"
    case Conjunction => "6"
  }

  /** The label both tables give it, e.g. `(adj)`. */
  function Label(p: PartOfSpeech): string {
    "(" + Bare(p) + ")"
  }

  /** The own entries of `numericMap`: the part of speech a key stands for. */
  function NumericEntry(k: string): (r: Option<PartOfSpeech>)
    ensures forall p :: r == Some(p) <==> k == NumericCode(p)
  {
    if k == "1" then Some(Noun)
    else if k == "2" then Some(Verb)
    else if k == "3" then Some(Adjective)
    else if k == "4" then Some(Adverb)
    else if k == "5" then Some(Preposition)
    else if k == "6" then Some(Conjunction)
    else None
  }

  /** The own entries of `textMap`. */
  function TextEntry(k: string): (r: Option<PartOfSpeech>)
    ensures forall p :: r == Some(p) <==> k == Bare(p)
  {
    if k == "n" then Some(Noun)
    else if k == "v" then Some(Verb)
    else if k == "adj" then Some(Adjective)
    else if k == "adv" then Some(Adverb)
    else if k == "prep" then Some(Preposition)
    else if k == "conj" then Some(Conjunction)
    else None
  }

  /** The labels mapType can produce. */
  predicate IsLabel(l: string) {
    l == "" || exists p :: l == Label(p)
  }

  /** The codes mapType recognises, after trimming and lower-casing. */
  predicate IsKnownCode(k: string) {
    exists p :: k == NumericCode(p) || k == Bare(p)
  }

  /**
   * mapType after normalising, looking the key up among the tables' own
   * entries: `numericMap[k] || textMap[k] || ''`.
   */
  function MapKey(k: string): (r: string)
    ensures IsLabel(r)
    ensures r != "" <==> IsKnownCode(k)
    ensures forall p :: k == NumericCode(p) || k == Bare(p) ==> r == Label(p)
  {
    match NumericEntry(k)
    case Some(p) => Label(p)
    case None =>
      match TextEntry(k)
      case Some(p) => Label(p)
      case None => ""
  }

  /** mapType: the label of a database code. */
  function MapType(c: RawCode): (r: string)
    ensures IsLabel(r)
    ensures r != "" <==> IsKnownCode(NormalizeCode(c))
    ensures forall p :: NormalizeCode(c) == NumericCode(p) || NormalizeCode(c) == Bare(p) ==> r == Label(p)
  {
    MapKey(NormalizeCode(c))
  }

  /** The lookup key of an already trimmed code is its lower-cased text. */
  lemma KeyOfTrimmed(c: RawCode, s: string)
    requires CodeString(c) == s && IsTrimmed(s)
    ensures NormalizeCode(c) == ToLower(s)
  {
    TrimPadded("", s, "");
    assert "" + s + "" == s;
  }

  /** Surrounding white space in a code makes no difference. */
  lemma MapTypeIgnoresSpace(s: string)
    ensures MapType(Str(s)) == MapType(Str(Trim(s)))
  {
    TrimIdempotent(s);
  }

  /** Neither does letter case. */
  lemma MapTypeIgnoresCase(s: string)
    ensures MapType(Str(s)) == MapType(Str(ToLower(s)))
  {
    ToLowerTrim(s);
    ToLowerIdempotent(Trim(s));
  }

  /** A numeric code and its decimal text are the same code. */
  lemma MapTypeOfNumber(n: int)
    ensures MapType(Number(n)) == MapType(Str(IntToString(n)))
  {
  }

  /** A key already trimmed and in lower case is looked up as it is. */
  lemma KeyOfLowerCode(c: RawCode, s: string)
    requires CodeString(c) == s && |s| > 0
    requires forall i :: 0 <= i < |s| ==> 'a' <= s[i] <= 'z' || '0' <= s[i] <= '9'
    ensures NormalizeCode(c) == s
  {
    assert !IsSpace(s[0]) && !IsSpace(s[|s| - 1]);
    KeyOfTrimmed(c, s);
    assert ToLower(s) == s;
  }

  /** Both tables are consulted: a part of speech's number and its name give its label. */
  lemma MapTypeOfCodes(p: PartOfSpeech)
    ensures MapType(Number(NumericValue(p))) == Label(p)
    ensures MapType(Str(Bare(p))) == Label(p)
  {
    KeyOfLowerCode(Number(NumericValue(p)), NumericCode(p));
    KeyOfLowerCode(Str(Bare(p)), Bare(p));
  }

  /** The number whose decimal text is the `numericMap` key. */
  function NumericValue(p: PartOfSpeech): (n: int)
    ensures IntToString(n) == NumericCode(p)
  {
    match p
    case Noun => 1
    case Verb => 2
    case Adjective => 3
    case Adverb => 4
    case Preposition => 5
    case Conjunction => 6
  }

  /** The labels as the store keeps them, once normalizeType has dropped the parentheses. */
  predicate IsBareLabel(b: string) {
    b == "" || exists p :: b == Bare(p)
  }

  lemma NormalizeEmptyLabel()
    ensures NormalizeType(Some("")) == ""
  {
    assert Seqs.Filter("", NotParen) == [];
  }

  /** Each label is stored as the bare name of its part of speech. */
  lemma NormalizeLabel(p: PartOfSpeech)
    ensures NormalizeType(Some(Label(p))) == Bare(p)
  {
    var b := Bare(p);
    assert !IsSpace(b[0]) && !IsSpace(b[|b| - 1]);
    NormalizeParenthesised(b);
  }

  /** Whatever code the database holds, the card's type ends up one of the bare labels. */
  lemma StoredTypeIsBareLabel(c: RawCode)
    ensures IsBareLabel(NormalizeType(Some(MapType(c))))
  {
    var l := MapType(c);
    if l == "" {
      NormalizeEmptyLabel();
    } else {
      var p :| l == Label(p);
      NormalizeLabel(p);
    }
  }

  /**
   * What a property read `obj[k]` on the object literals actually yields: an own
   * entry, nothing, or a member every object inherits from `Object.prototype`.
   */
  datatype JsValue = JsString(s: string) | JsUndefined | JsInherited(name: string)

  /**
   * The `Object.prototype` members whose names are already lower case, so the only
   * ones a lower-cased key can reach: the `Object` constructor and the prototype itself.
   * Both are truthy.
   */
  const InheritedLowerCase: set<string> := {"constructor", "__proto__"}

  function LookupAsWritten(own: Option<PartOfSpeech>, k: string): JsValue {
    if own.Some? then JsString(Label(own.value))
    else if k in InheritedLowerCase then JsInherited(k)
    else JsUndefined
  }

  /** `a || b` on the values above: undefined and "" are falsy, everything else truthy. */
  function Or(a: JsValue, b: JsValue): JsValue {
    if a == JsUndefined || a == JsString("") then b else a
  }

  /** mapType exactly as written, after normalising: the `[]` reads also see inherited members. */
  function MapKeyAsWritten(k: string): JsValue {
    Or(LookupAsWritten(NumericEntry(k), k), Or(LookupAsWritten(TextEntry(k), k), JsString("")))
  }

  function MapTypeAsWritten(c: RawCode): JsValue {
    MapKeyAsWritten(NormalizeCode(c))
  }

  /** A key naming an inherited member is no table's own key: as written it yields that member, corrected it gives "". */
  lemma MapKeyAsWrittenLeaks(k: string)
    requires k in InheritedLowerCase
    ensures MapKeyAsWritten(k) == JsInherited(k)
    ensures MapKey(k) == ""
  {
    assert |k| >= 9;
    assert NumericEntry(k) == None && TextEntry(k) == None by {
      forall p ensures k != NumericCode(p) && k != Bare(p) {
      }
    }
  }

  /** Any code that normalises to such a key escapes the label set as written, and maps to "" when corrected. */
  lemma MapTypeAsWrittenLeaks(c: RawCode)
    requires NormalizeCode(c) in InheritedLowerCase
    ensures MapTypeAsWritten(c) == JsInherited(NormalizeCode(c))
    ensures MapTypeAsWritten(c) != JsString(MapType(c)) && MapType(c) == ""
  {
    MapKeyAsWrittenLeaks(NormalizeCode(c));
  }

  /** The text code "constructor" is such a code. */
  lemma ConstructorCodeLeaks(c: RawCode)
    requires c == Str("constructor")
    ensures MapTypeAsWritten(c) == JsInherited("constructor")
    ensures MapType(c) == ""
  {
    KeyOfLowerCode(c, "constructor");
    MapTypeAsWrittenLeaks(c);
  }

  /** Away from those two keys the lookup as written and the corrected one agree. */
  lemma MapKeyAsWrittenAgrees(k: string)
    requires k !in InheritedLowerCase
    ensures MapKeyAsWritten(k) == JsString(MapKey(k))
  {
    match NumericEntry(k)
    case Some(p) =>
      assert Label(p)[0] == '(';
    case None =>
      match TextEntry(k)
      case Some(p) =>
        assert Label(p)[0] == '(';
      case None =>
  }

  /** The same, stated on database codes. */
  lemma MapTypeAsWrittenAgrees(c: RawCode)
    requires NormalizeCode(c) !in InheritedLowerCase
    ensures MapTypeAsWritten(c) == JsString(MapType(c))
  {
    MapKeyAsWrittenAgrees(NormalizeCode(c));
  }

  /** A database word row; NULL columns are None. */
  datatype DbWord = DbWord(
    wordId: int, word: string, typeCode: RawCode, meaning: string,
    phienAm: Option<string>, example: Option<string>,
    linkAudio: Option<string>, linkImage: Option<string>)

  /** A database lesson row. */
  datatype DbLesson = DbLesson(lessonId: int, lessonName: Option<string>, linkImage: Option<string>)

  /** `v || ''` for a nullable text column. */
  function OrEmpty(v: Option<string>): (r: string)
    ensures v.Some? ==> r == v.value
    ensures v.None? ==> r == ""
  {
    v.GetOr("")
  }

  /** A word row as the output file holds it: printed id, mapType's label, '' for a missing pronunciation or example. */
  function ConvertWord(w: DbWord): (r: RawVocabWord)
    ensures r.pronunciation == Some(OrEmpty(w.phienAm)) && r.example == Some(OrEmpty(w.example))
    ensures r.id == IntToString(w.wordId) && r.term == w.word && r.meaning == w.meaning
    ensures r.wordType == MapType(w.typeCode) && IsLabel(r.wordType)
    ensures r.audio == w.linkAudio && r.image == w.linkImage
  {
    RawVocabWord(IntToString(w.wordId), w.word, MapType(w.typeCode), w.meaning,
                 Some(OrEmpty(w.phienAm)), Some(OrEmpty(w.example)), w.linkAudio, w.linkImage)
  }

  /** `lesson.Lesson || \`Topic ${lesson.ID}\`` */
  function LessonName(l: DbLesson): (r: string)
    ensures l.lessonName.Some? && l.lessonName.value != "" ==> r == l.lessonName.value
    ensures l.lessonName.None? || l.lessonName.value == "" ==> r == "Topic " + IntToString(l.lessonId)
  {
    if l.lessonName.None? || l.lessonName.value == "" then "Topic " + IntToString(l.lessonId)
    else l.lessonName.value
  }

  function ConvertLesson(l: DbLesson, words: seq<DbWord>): (r: RawVocabLesson)
    ensures r.id == IntToString(l.lessonId) && r.name == LessonName(l) && r.image == l.linkImage
    ensures r.words.Some? && |r.words.value| == |words|
    ensures forall i :: 0 <= i < |words| ==> r.words.value[i] == ConvertWord(words[i])
  {
    RawVocabLesson(IntToString(l.lessonId), LessonName(l), l.linkImage,
                   Some(seq(|words|, i requires 0 <= i < |words| => ConvertWord(words[i]))))
  }

  /** The sort key `parseInt(lesson.id)`; every converted lesson's id parses (NumericIdOfConverted). */
  function NumericId(l: RawVocabLesson): int {
    ParseInt(l.id).GetOr(0)
  }

  /** The key a converted lesson sorts by is its database ID. */
  lemma NumericIdOfConverted(l: DbLesson, words: seq<DbWord>)
    ensures ParseInt(ConvertLesson(l, words).id) == Some(l.lessonId)
    ensures NumericId(ConvertLesson(l, words)) == l.lessonId
  {
    ParseIntOfIntToString(l.lessonId, "");
    assert IntToString(l.lessonId) + "" == IntToString(l.lessonId);
  }

  predicate SortedById(s: seq<RawVocabLesson>) {
    Seqs.SortedBy(s, NumericId)
  }

  /**
   * The script's output: lessons converted in whatever order their word queries
   * finished (`batches`), then sorted.  The result is ordered by database ID and
   * holds exactly the converted lessons.
   */
  function ConvertAll(batches: seq<(DbLesson, seq<DbWord>)>): (r: seq<RawVocabLesson>)
    ensures SortedById(r)
    ensures |r| == |batches|
    ensures multiset(r) == multiset(seq(|batches|, i requires 0 <= i < |batches| =>
                                          ConvertLesson(batches[i].0, batches[i].1)))
  {
    var converted := seq(|batches|, i requires 0 <= i < |batches| => ConvertLesson(batches[i].0, batches[i].1));
    var r := Seqs.SortBy(converted, NumericId);
    assert |r| == |multiset(r)| == |multiset(converted)| == |converted|;
    r
  }

  /** Every lesson of the output sorts by its database ID. */
  lemma ConvertAllOrderedByDatabaseId(batches: seq<(DbLesson, seq<DbWord>)>)
    ensures forall i, j :: 0 <= i < j < |batches| ==>
      ParseInt(ConvertAll(batches)[i].id).Some? &&
      NumericId(ConvertAll(batches)[i]) <= NumericId(ConvertAll(batches)[j])
  {
    var converted := seq(|batches|, i requires 0 <= i < |batches| => ConvertLesson(batches[i].0, batches[i].1));
    var r := ConvertAll(batches);
    forall i | 0 <= i < |r| ensures ParseInt(r[i].id).Some? {
      assert r[i] in multiset(converted);
      var k :| 0 <= k < |converted| && converted[k] == r[i];
      NumericIdOfConverted(batches[k].0, batches[k].1);
    }
  }
}
