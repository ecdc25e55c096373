/**
 * The lessons catalogue: the fixed lesson table, the category filter, the
 * per-category counts, the total-duration figure and its "Xh Ym" display, and
 * the one-lesson-at-a-time expansion of lesson cards.
 */
module LessonsPage {
  import opened Optional
  import opened Text
  import opened Seqs

  datatype Category = Listening | Reading | Grammar | Strategy

  /** The filter buttons: every lesson, or one category. */
  datatype Selection = All | Only(category: Category)

  /** A catalogue entry; the descriptions and topic lists are display text and are not kept. */
  datatype Lesson = Lesson(id: string, title: string, category: Category, part: Option<int>, duration: string)

  /** The table's listening block. */
  const ListeningLessons: seq<Lesson> := [
    Lesson("l1", "Part 1: Photographs - Person & Object Description", Listening, Some(1), "15 min"),
    Lesson("l2", "Part 2: Question-Response Patterns", Listening, Some(2), "20 min"),
    Lesson("l3", "Part 3: Conversations - Main Idea & Details", Listening, Some(3), "25 min"),
    Lesson("l4", "Part 4: Short Talks - Announcements & Messages", Listening, Some(4), "25 min")
  ]

  const ReadingLessons: seq<Lesson> := [
    Lesson("r5", "Part 5: Vocabulary in Context", Reading, Some(5), "20 min"),
    Lesson("r6", "Part 5: Grammar Essentials", Reading, Some(5), "30 min"),
    Lesson("r7", "Part 6: Text Completion Strategies", Reading, Some(6), "25 min"),
    Lesson("r8", "Part 7: Single Passage - Emails & Letters", Reading, Some(7), "30 min"),
    Lesson("r9", "Part 7: Double & Triple Passages", Reading, Some(7), "35 min")
  ]

  const GrammarLessons: seq<Lesson> := [
    Lesson("g1", "Verb Tenses Mastery", Grammar, None, "30 min"),
    Lesson("g2", "Conditionals & Modals", Grammar, None, "25 min"),
    Lesson("g3", "Relative Clauses & Conjunctions", Grammar, None, "20 min")
  ]

  const StrategyLessons: seq<Lesson> := [
    Lesson("s1", "Time Management Blueprint", Strategy, None, "15 min"),
    Lesson("s2", "Eliminating Wrong Answers", Strategy, None, "20 min"),
    Lesson("s3", "Test Day Success Routine", Strategy, None, "10 min")
  ]

  /** LESSONS, in table order. */
  const Catalogue: seq<Lesson> := ListeningLessons + ReadingLessons + GrammarLessons + StrategyLessons

  function InCategory(c: Category): Lesson -> bool {
    (l: Lesson) => l.category == c
  }

  /** `filteredLessons` */
  function Filtered(sel: Selection, ls: seq<Lesson>): seq<Lesson> {
    match sel
    case All => ls
    case Only(c) => Filter(ls, InCategory(c))
  }

  /** A category shows exactly its own lessons, and `all` shows everything. */
  lemma FilteredMembers(sel: Selection, ls: seq<Lesson>, l: Lesson)
    ensures sel.All? ==> Filtered(sel, ls) == ls
    ensures sel.Only? ==> (l in Filtered(sel, ls) <==> l in ls && l.category == sel.category)
  {
    if sel.Only? {
      FilterMembers(ls, InCategory(sel.category), l);
    }
  }

  /** Filtering keeps table order: it distributes over concatenation. */
  lemma FilteredKeepsOrder(sel: Selection, a: seq<Lesson>, b: seq<Lesson>)
    ensures Filtered(sel, a + b) == Filtered(sel, a) + Filtered(sel, b)
  {
    if sel.Only? {
      FilterConcat(a, b, InCategory(sel.category));
    }
  }

  /** The stat cards' per-category figures. */
  function CountIn(ls: seq<Lesson>, c: Category): nat {
    |Filter(ls, InCategory(c))|
  }

  /** Every lesson has exactly one category, so the four figures add up to the total. */
  lemma {:induction false} CategoryCountsSum(ls: seq<Lesson>)
    ensures CountIn(ls, Listening) + CountIn(ls, Reading) + CountIn(ls, Grammar) + CountIn(ls, Strategy) == |ls|
  {
    if |ls| > 0 {
      CategoryCountsSum(ls[..|ls| - 1]);
      var l := ls[|ls| - 1];
      assert InCategory(l.category)(l);
    }
  }

  /** A block of one category filters to itself under that category and to nothing under any other. */
  lemma BlockFilters(block: seq<Lesson>, c: Category, d: Category)
    requires forall i :: 0 <= i < |block| ==> block[i].category == c
    ensures Filter(block, InCategory(d)) == if c == d then block else []
  {
    if c == d {
      FilterAll(block, InCategory(d));
    } else {
      FilterNone(block, InCategory(d));
    }
  }

  function BlockOf(c: Category): seq<Lesson> {
    match c
    case Listening => ListeningLessons
    case Reading => ReadingLessons
    case Grammar => GrammarLessons
    case Strategy => StrategyLessons
  }

  /** Filtering four blocks in a row filters each block in turn. */
  lemma FilterFour(a: seq<Lesson>, b: seq<Lesson>, c: seq<Lesson>, d: seq<Lesson>, p: Lesson -> bool)
    ensures Filter(a + b + c + d, p) == Filter(a, p) + Filter(b, p) + Filter(c, p) + Filter(d, p)
  {
    FilterConcat(a + b + c, d, p);
    FilterConcat(a + b, c, p);
    FilterConcat(a, b, p);
  }

  /** When only the block of the chosen category survives, the four results joined are that block. */
  lemma PickBlock(x: Category, a: seq<Lesson>, b: seq<Lesson>, c: seq<Lesson>, d: seq<Lesson>,
                  fa: seq<Lesson>, fb: seq<Lesson>, fc: seq<Lesson>, fd: seq<Lesson>)
    requires fa == (if x == Listening then a else [])
    requires fb == (if x == Reading then b else [])
    requires fc == (if x == Grammar then c else [])
    requires fd == (if x == Strategy then d else [])
    ensures fa + fb + fc + fd == match x case Listening => a case Reading => b case Grammar => c case Strategy => d
  {
    match x
    case Listening => assert a + [] + [] + [] == a;
    case Reading => assert [] + b + [] + [] == b;
    case Grammar => assert [] + [] + c + [] == c;
    case Strategy => assert [] + [] + [] + d == d;
  }

  /** Four blocks of four different categories: filtering picks out the matching block. */
  lemma FourBlocksFilter(a: seq<Lesson>, b: seq<Lesson>, c: seq<Lesson>, d: seq<Lesson>, x: Category)
    requires forall i :: 0 <= i < |a| ==> a[i].category == Listening
    requires forall i :: 0 <= i < |b| ==> b[i].category == Reading
    requires forall i :: 0 <= i < |c| ==> c[i].category == Grammar
    requires forall i :: 0 <= i < |d| ==> d[i].category == Strategy
    ensures Filter(a + b + c + d, InCategory(x)) ==
      match x case Listening => a case Reading => b case Grammar => c case Strategy => d
  {
    var p := InCategory(x);
    FilterFour(a, b, c, d, p);
    BlockFilters(a, Listening, x);
    BlockFilters(b, Reading, x);
    BlockFilters(c, Grammar, x);
    BlockFilters(d, Strategy, x);
    PickBlock(x, a, b, c, d, Filter(a, p), Filter(b, p), Filter(c, p), Filter(d, p));
  }

  lemma BlocksAreCategories()
    ensures forall i :: 0 <= i < |ListeningLessons| ==> ListeningLessons[i].category == Listening
    ensures forall i :: 0 <= i < |ReadingLessons| ==> ReadingLessons[i].category == Reading
    ensures forall i :: 0 <= i < |GrammarLessons| ==> GrammarLessons[i].category == Grammar
    ensures forall i :: 0 <= i < |StrategyLessons| ==> StrategyLessons[i].category == Strategy
  {
  }

  /** Each category of the catalogue shows exactly its block of the table. */
  lemma CatalogueByCategory(c: Category)
    ensures Filtered(Only(c), Catalogue) == BlockOf(c)
  {
    BlocksAreCategories();
    FourBlocksFilter(ListeningLessons, ReadingLessons, GrammarLessons, StrategyLessons, c);
  }

  /** The stat cards: 15 lessons, of which 4 listening, 5 reading and 3 grammar (and 3 strategy). */
  lemma CatalogueCounts()
    ensures |Catalogue| == 15
    ensures CountIn(Catalogue, Listening) == 4 && CountIn(Catalogue, Reading) == 5
    ensures CountIn(Catalogue, Grammar) == 3 && CountIn(Catalogue, Strategy) == 3
  {
    CatalogueByCategory(Listening);
    CatalogueByCategory(Reading);
    CatalogueByCategory(Grammar);
    CatalogueByCategory(Strategy);
  }

  /** `parseInt(duration.split(' ')[0])`; NaN is None. */
  function LeadingMinutes(duration: string): Option<int> {
    ParseInt(Split(duration, ' ')[0])
  }

  /** The catalogue's duration format. */
  function MinutesLabel(k: nat): string {
    NatToString(k) + " min"
  }

  /** A duration written "<k> min" contributes k minutes. */
  lemma LeadingMinutesOfLabel(k: nat)
    ensures LeadingMinutes(MinutesLabel(k)) == Some(k)
  {
    var digits := NatToString(k);
    assert ' ' !in digits by {
      assert forall i :: 0 <= i < |digits| ==> IsDigit(digits[i]);
    }
    assert MinutesLabel(k) == digits + [' '] + "min";
    SplitAfter(digits, ' ', "min");
    ParseIntOfIntToString(k, "");
    assert IntToString(k) + "" == digits;
  }

  /** `acc + mins` over the lessons' minutes, where NaN absorbs everything. */
  function SumOrNaN(ms: seq<Option<int>>): Option<int> {
    if |ms| == 0 then Some(0)
    else
      var acc := SumOrNaN(ms[..|ms| - 1]);
      var last := ms[|ms| - 1];
      if acc.Some? && last.Some? then Some(acc.value + last.value) else None
  }

  /** The `reduce` of the total-duration figure. */
  function TotalDuration(ls: seq<Lesson>): Option<int> {
    SumOrNaN(seq(|ls|, i requires 0 <= i < |ls| => LeadingMinutes(ls[i].duration)))
  }

  /** The sum of a list of minute counts. */
  function SumMinutes(ks: seq<nat>): nat {
    if |ks| == 0 then 0 else SumMinutes(ks[..|ks| - 1]) + ks[|ks| - 1]
  }

  /** With every figure present, the fold is their sum. */
  lemma {:induction false} SumOrNaNOfNumbers(ms: seq<Option<int>>, ks: seq<nat>)
    requires |ks| == |ms|
    requires forall i :: 0 <= i < |ms| ==> ms[i] == Some(ks[i] as int)
    ensures SumOrNaN(ms) == Some(SumMinutes(ks) as int)
  {
    if |ms| > 0 {
      SumOrNaNOfNumbers(ms[..|ms| - 1], ks[..|ks| - 1]);
    }
  }

  /** One NaN makes the fold NaN. */
  lemma {:induction false} SumOrNaNOfNaN(ms: seq<Option<int>>, i: nat)
    requires i < |ms| && ms[i].None?
    ensures SumOrNaN(ms).None?
  {
    if i < |ms| - 1 {
      SumOrNaNOfNaN(ms[..|ms| - 1], i);
    }
  }

  /** When every duration is written "<k> min", the total is the sum of the k's. */
  lemma TotalDurationOfLabels(ls: seq<Lesson>, ks: seq<nat>)
    requires |ks| == |ls|
    requires forall i :: 0 <= i < |ls| ==> ls[i].duration == MinutesLabel(ks[i])
    ensures TotalDuration(ls) == Some(SumMinutes(ks) as int)
  {
    var ms := seq(|ls|, i requires 0 <= i < |ls| => LeadingMinutes(ls[i].duration));
    forall i | 0 <= i < |ms| ensures ms[i] == Some(ks[i] as int) {
      LeadingMinutesOfLabel(ks[i]);
    }
    SumOrNaNOfNumbers(ms, ks);
  }

  /** One duration without a leading number makes the whole figure NaN. */
  lemma TotalDurationNaN(ls: seq<Lesson>, i: nat)
    requires i < |ls| && LeadingMinutes(ls[i].duration).None?
    ensures TotalDuration(ls).None?
  {
    SumOrNaNOfNaN(seq(|ls|, i requires 0 <= i < |ls| => LeadingMinutes(ls[i].duration)), i);
  }

  /** JavaScript's `%` on an integer and a positive divisor: the remainder takes the dividend's sign. */
  function JsRem(a: int, b: nat): int
    requires b > 0
  {
    if a >= 0 then a % b else -((-a) % b)
  }

  /**
   * The total-duration display: `${hours}h ${mins}m` when `Math.floor(total / 60) > 0`,
   * `${mins}m` otherwise, where `mins = total % 60`; NaN shows as "NaNm".
   */
  function FormatDuration(total: Option<int>): string {
    match total
    case None => "NaNm"
    case Some(t) =>
      var hours, mins := t / 60, JsRem(t, 60);
      if hours > 0 then IntToString(hours) + "h " + IntToString(mins) + "m"
      else IntToString(mins) + "m"
  }

  /** For a non-negative total the display splits it into whole hours and the remaining minutes. */
  lemma FormatDurationSplits(t: nat)
    ensures t >= 60 ==> FormatDuration(Some(t)) == NatToString(t / 60) + "h " + NatToString(t % 60) + "m"
    ensures t < 60 ==> FormatDuration(Some(t)) == NatToString(t) + "m"
    ensures (t / 60) * 60 + t % 60 == t && t % 60 < 60
  {
  }

  /** Reads a duration display back: "<h>h <m>m" or "<m>m" to minutes. */
  function ParseDuration(s: string): Option<int> {
    ParseDurationPieces(Split(s, ' '))
  }

  /** The same, on the display's space-separated pieces. */
  function ParseDurationPieces(p: seq<string>): Option<int> {
    if |p| == 2 && UnitValue(p[0], 'h').Some? && UnitValue(p[1], 'm').Some? then
      Some(UnitValue(p[0], 'h').value * 60 + UnitValue(p[1], 'm').value)
    else if |p| == 1 && UnitValue(p[0], 'm').Some? then
      Some(UnitValue(p[0], 'm').value)
    else None
  }

  /** A piece such as "15m": digits followed by the unit letter. */
  function UnitValue(x: string, unit: char): Option<nat> {
    if |x| > 1 && x[|x| - 1] == unit && AllDigits(x[..|x| - 1]) then Some(DigitsValue(x[..|x| - 1]))
    else None
  }

  /** Digits followed by the unit read back as their value. */
  lemma UnitValueOf(digits: string, unit: char)
    requires |digits| > 0 && AllDigits(digits)
    ensures UnitValue(digits + [unit], unit) == Some(DigitsValue(digits))
  {
    var x := digits + [unit];
    assert x[..|x| - 1] == digits;
  }

  lemma DigitsHaveNoSpace(s: string)
    requires AllDigits(s)
    ensures ' ' !in s
  {
    assert forall i :: 0 <= i < |s| ==> IsDigit(s[i]);
  }

  /** The pieces "<h>h" and "<m>m" read back as h hours and m minutes. */
  lemma ParseHoursMinutes(h: string, m: string)
    requires |h| > 0 && |m| > 0 && AllDigits(h) && AllDigits(m)
    ensures ParseDurationPieces([h + "h", m + "m"]) == Some(DigitsValue(h) * 60 + DigitsValue(m))
  {
    UnitValueOf(h, 'h');
    UnitValueOf(m, 'm');
  }

  /** A display with hours splits at its one space into the hours and the minutes piece. */
  lemma SplitHoursDisplay(h: string, m: string)
    requires AllDigits(h) && AllDigits(m)
    ensures Split(h + "h " + m + "m", ' ') == [h + "h", m + "m"]
  {
    DigitsHaveNoSpace(h);
    DigitsHaveNoSpace(m);
    var p0, p1 := h + "h", m + "m";
    assert ' ' !in p0 && ' ' !in p1;
    assert h + "h " + m + "m" == p0 + [' '] + p1;
    SplitAfter(p0, ' ', p1);
    SplitNoSeparator(p1, ' ');
  }

  /** A total of an hour or more reads back from its "<h>h <m>m" display. */
  lemma HoursRoundTrip(t: nat)
    requires t >= 60
    ensures ParseDuration(FormatDuration(Some(t))) == Some(t)
  {
    var h, m := NatToString(t / 60), NatToString(t % 60);
    assert FormatDuration(Some(t)) == h + "h " + m + "m" && (t / 60) * 60 + t % 60 == t by {
      FormatDurationSplits(t);
    }
    SplitHoursDisplay(h, m);
    ParseHoursMinutes(h, m);
    NatToStringValue(t / 60);
    NatToStringValue(t % 60);
  }

  /** A total under an hour reads back from its "<m>m" display. */
  lemma MinutesRoundTrip(t: nat)
    requires t < 60
    ensures ParseDuration(FormatDuration(Some(t))) == Some(t)
  {
    var m := NatToString(t);
    assert FormatDuration(Some(t)) == m + "m" by {
      FormatDurationSplits(t);
    }
    DigitsHaveNoSpace(m);
    SplitNoSeparator(m + "m", ' ');
    UnitValueOf(m, 'm');
    NatToStringValue(t);
  }

  /** The display loses nothing: any non-negative total reads back as itself. */
  lemma FormatDurationRoundTrip(t: nat)
    ensures ParseDuration(FormatDuration(Some(t))) == Some(t)
  {
    if t >= 60 {
      HoursRoundTrip(t);
    } else {
      MinutesRoundTrip(t);
    }
  }

  /** `{n} lesson` / `{n} lessons` */
  function CountLabel(n: nat): (r: string)
    ensures r == "lesson" <==> n == 1
    ensures r == "lesson" || r == "lessons"
  {
    if n == 1 then "lesson" else "lessons"
  }

  /** A click on a lesson card: collapse it if it was the expanded one, otherwise expand it alone. */
  function Clicked(expanded: Option<string>, id: string): (r: Option<string>)
    ensures r == None <==> expanded == Some(id)
    ensures r != None ==> r == Some(id)
  {
    if expanded == Some(id) then None else Some(id)
  }

  /** Two clicks on the same card restore the previous expansion, unless another card was expanded: then all collapse. */
  lemma ClickedTwice(expanded: Option<string>, id: string)
    ensures expanded == None || expanded == Some(id) ==> Clicked(Clicked(expanded, id), id) == expanded
    ensures expanded != None && expanded != Some(id) ==> Clicked(Clicked(expanded, id), id) == None
  {
  }

  /** The page state: the selected filter and the expanded lesson, if any. */
  class LessonsView {
    var selected: Selection
    var expanded: Option<string>

    constructor ()
      ensures selected == All && expanded == None
    {
      selected, expanded := All, None;
    }

    /** The lessons the page lists for the current filter. */
    function Shown(): seq<Lesson>
      reads this
    {
      Filtered(selected, Catalogue)
    }

    method SelectCategory(sel: Selection)
      modifies this
      ensures selected == sel && expanded == old(expanded)
    {
      selected := sel;
    }

    method ClickLesson(id: string)
      modifies this
      ensures expanded == Clicked(old(expanded), id) && selected == old(selected)
    {
      if expanded == Some(id) {
        expanded := None;
      } else {
        expanded := Some(id);
      }
    }
  }
}
