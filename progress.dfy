/** The progress tracker: per-category, per-word practice counters with a
    five-success mastery rule, derived category and overall totals, a log of
    the words practised on each calendar day, the day streak and the mastery
    rate. Dates are calendar-day numbers. */
module Progress {
  import opened Common

  /** Successful practices needed to master a word. */
  const MasteryGoal: int := 5

  datatype WordData = WordData(timesPracticed: nat, lastPracticed: Option<int>, mastered: bool, masteryProgress: int)

  datatype CategoryData = CategoryData(practiced: int, mastered: int, words: map<string, WordData>)

  datatype WordRef = WordRef(category: string, word: string)

  /** The words practised on one calendar day. */
  datatype DaySession = DaySession(date: int, wordsPracticed: seq<WordRef>)

  datatype LastSession = LastSession(date: int, category: string, word: string)

  /** The 'mastery' achievement recorded when a word is mastered. */
  datatype Achievement = Mastery(category: string, word: string, date: int)

  /** A word seen for the first time: never practised, no progress. */
  function NewWord(): (r: WordData)
    ensures r.timesPracticed == 0 && r.lastPracticed.None? && !r.mastered && r.masteryProgress == 0
  {
    WordData(0, None, false, 0)
  }

  /** A category seen for the first time: no words, zero counters. */
  function NewCategory(): (r: CategoryData)
    ensures r.practiced == 0 && r.mastered == 0 && r.words == map[]
  {
    CategoryData(0, 0, map[])
  }

  /** One practice of a word: counted, dated, and moved one step towards
      mastery on success or one step back (never below 0) on failure; a
      mastered word keeps its mastery and its progress. */
  function PracticeWord(w: WordData, completed: bool, today: int): (r: WordData)
    ensures r.timesPracticed == w.timesPracticed + 1
    ensures r.lastPracticed == Some(today)
    ensures w.mastered ==> r.mastered && r.masteryProgress == w.masteryProgress
    ensures completed && !w.mastered ==>
      r.masteryProgress == w.masteryProgress + 1 && (r.mastered <==> r.masteryProgress >= MasteryGoal)
    ensures !completed ==> r.mastered == w.mastered
    ensures !completed && !w.mastered && w.masteryProgress > 0 ==> r.masteryProgress == w.masteryProgress - 1
    ensures !completed && w.masteryProgress <= 0 ==> r.masteryProgress == w.masteryProgress
  {
    var counted := w.(timesPracticed := w.timesPracticed + 1, lastPracticed := Some(today));
    if completed then
      if !w.mastered then
        var stepped := counted.(masteryProgress := w.masteryProgress + 1);
        if stepped.masteryProgress >= MasteryGoal then stepped.(mastered := true) else stepped
      else counted
    else if !w.mastered && w.masteryProgress > 0 then
      counted.(masteryProgress := w.masteryProgress - 1)
    else counted
  }

  /** The word records practice can produce: progress between 0 and 5, and
      mastered exactly when it has reached 5. */
  ghost predicate WordOk(w: WordData) {
    0 <= w.masteryProgress <= MasteryGoal && (w.mastered <==> w.masteryProgress == MasteryGoal)
  }

  lemma PracticeKeepsWordOk(w: WordData, completed: bool, today: int)
    requires WordOk(w)
    ensures WordOk(PracticeWord(w, completed, today))
  {
  }

  /** Practising a word once for each outcome, in order. */
  function PracticeRun(w: WordData, outcomes: seq<bool>, today: int): WordData
    decreases |outcomes|
  {
    if outcomes == [] then w else PracticeRun(PracticeWord(w, outcomes[0], today), outcomes[1..], today)
  }

  function Successes(n: nat): (s: seq<bool>)
    ensures |s| == n && forall k :: 0 <= k < n ==> s[k]
  {
    seq(n, _ => true)
  }

  /** Starting from an unmastered word, each success adds one step until the
      fifth step masters the word. */
  lemma {:induction false} SuccessesStepTowardsMastery(w: WordData, n: nat, today: int)
    requires WordOk(w) && !w.mastered
    decreases n
    ensures var r := PracticeRun(w, Successes(n), today);
      r.masteryProgress == Min(w.masteryProgress + n, MasteryGoal) &&
      (r.mastered <==> w.masteryProgress + n >= MasteryGoal) &&
      r.timesPracticed == w.timesPracticed + n
  {
    if n > 0 {
      var next := PracticeWord(w, true, today);
      assert Successes(n)[1..] == Successes(n - 1);
      if next.mastered {
        MasteredStaysMastered(next, Successes(n - 1), today);
      } else {
        SuccessesStepTowardsMastery(next, n - 1, today);
      }
    }
  }

  /** A new word is mastered after exactly five successful practices. */
  lemma FiveSuccessesMaster(today: int)
    ensures PracticeRun(NewWord(), Successes(5), today).mastered
    ensures !PracticeRun(NewWord(), Successes(4), today).mastered
  {
    SuccessesStepTowardsMastery(NewWord(), 5, today);
    SuccessesStepTowardsMastery(NewWord(), 4, today);
  }

  /** Mastery is permanent: no run of practices, successful or not, unmasters
      a word or changes its progress. */
  lemma {:induction false} MasteredStaysMastered(w: WordData, outcomes: seq<bool>, today: int)
    requires w.mastered
    decreases |outcomes|
    ensures var r := PracticeRun(w, outcomes, today);
      r.mastered && r.masteryProgress == w.masteryProgress &&
      r.timesPracticed == w.timesPracticed + |outcomes|
  {
    if outcomes != [] {
      MasteredStaysMastered(PracticeWord(w, outcomes[0], today), outcomes[1..], today);
    }
  }

  /** The mastered words of a category. */
  ghost function MasteredWords(words: map<string, WordData>): set<string> {
    set w | w in words && words[w].mastered
  }

  /** A category's counters agree with its words: `practiced` is the number
      of distinct words, `mastered` the number of mastered ones. */
  ghost predicate CategoryOk(c: CategoryData) {
    && c.practiced == |c.words|
    && c.mastered == |MasteredWords(c.words)|
    && forall w :: w in c.words ==> WordOk(c.words[w])
  }

  /** The two per-category counters that the overall totals add up. */
  datatype Counter = Practiced | MasteredIn

  function CountOf(c: CategoryData, k: Counter): int {
    match k
    case Practiced => c.practiced
    case MasteredIn => c.mastered
  }

  /** `Object.values(categories).reduce((sum, cat) => sum + cat[k], 0)`, over
      the categories in enumeration order. */
  function SumOver(order: seq<string>, cats: map<string, CategoryData>, k: Counter): (r: int)
    ensures (forall c :: c in cats ==> CountOf(cats[c], k) >= 0) ==> r >= 0
  {
    if order == [] then 0
    else (if order[0] in cats then CountOf(cats[order[0]], k) else 0) + SumOver(order[1..], cats, k)
  }

  /** A category outside the enumeration does not affect the sum. */
  lemma {:induction false} SumOverFrame(order: seq<string>, cats: map<string, CategoryData>, c: string, v: CategoryData, k: Counter)
    requires c !in order
    ensures SumOver(order, cats[c := v], k) == SumOver(order, cats, k)
  {
    if order != [] {
      SumOverFrame(order[1..], cats, c, v, k);
    }
  }

  /** Replacing one category changes the sum by the difference. */
  lemma {:induction false} SumOverUpdate(order: seq<string>, cats: map<string, CategoryData>, c: string, v: CategoryData, k: Counter)
    requires Distinct(order) && c in order && c in cats
    ensures SumOver(order, cats[c := v], k) == SumOver(order, cats, k) - CountOf(cats[c], k) + CountOf(v, k)
  {
    assert Distinct(order[1..]);
    if order[0] == c {
      assert c !in order[1..];
      SumOverFrame(order[1..], cats, c, v, k);
    } else {
      SumOverUpdate(order[1..], cats, c, v, k);
    }
  }

  /** Appending a category to the enumeration adds its value. */
  lemma {:induction false} SumOverAppend(order: seq<string>, cats: map<string, CategoryData>, c: string, k: Counter)
    requires c in cats
    ensures SumOver(order + [c], cats, k) == SumOver(order, cats, k) + CountOf(cats[c], k)
  {
    if order == [] {
      assert order + [c] == [c];
    } else {
      assert (order + [c])[1..] == order[1..] + [c];
      SumOverAppend(order[1..], cats, c, k);
    }
  }

  /** When no category has more mastered words than practised ones, the
      mastered total lies between 0 and the practised total. */
  lemma {:induction false} MasteredSumBounded(order: seq<string>, cats: map<string, CategoryData>)
    requires forall c :: c in cats ==> 0 <= cats[c].mastered <= cats[c].practiced
    ensures 0 <= SumOver(order, cats, MasteredIn) <= SumOver(order, cats, Practiced)
  {
    if order != [] {
      MasteredSumBounded(order[1..], cats);
    }
  }

  /** The tracker's counters agree with its word records: every category is
      consistent, `categoryOrder` enumerates the categories, and the totals
      are the sums over the categories. */
  ghost predicate Consistent(cats: map<string, CategoryData>, order: seq<string>, totalPracticed: int, totalMastered: int) {
    && Distinct(order)
    && (forall c :: c in cats <==> c in order)
    && (forall c :: c in cats ==> CategoryOk(cats[c]))
    && totalPracticed == SumOver(order, cats, Practiced)
    && totalMastered == SumOver(order, cats, MasteredIn)
  }

  lemma MasteredWordsBounded(c: CategoryData)
    requires CategoryOk(c)
    ensures 0 <= c.mastered <= c.practiced
  {
    var m := MasteredWords(c.words);
    assert m <= c.words.Keys;
    assert |c.words.Keys - m| + |m| == |c.words.Keys| by {
      assert (c.words.Keys - m) + m == c.words.Keys;
    }
  }

  /** In a consistent tracker, `totalMastered <= totalPracticed`. */
  lemma MasteredAtMostPracticed(cats: map<string, CategoryData>, order: seq<string>, totalPracticed: int, totalMastered: int)
    requires Consistent(cats, order, totalPracticed, totalMastered)
    ensures 0 <= totalMastered <= totalPracticed
  {
    forall c | c in cats
      ensures 0 <= cats[c].mastered <= cats[c].practiced
    {
      MasteredWordsBounded(cats[c]);
    }
    MasteredSumBounded(order, cats);
  }

  /** Recording a practice of `word` changes the mastered words of its
      category only by adding `word` when it is newly mastered. */
  lemma MasteredWordsAfterPractice(words: map<string, WordData>, word: string, old_: WordData, r: WordData)
    requires word in words ==> words[word] == old_
    requires word !in words ==> !old_.mastered
    requires old_.mastered ==> r.mastered
    ensures |MasteredWords(words[word := r])| ==
      |MasteredWords(words)| + (if r.mastered && !old_.mastered then 1 else 0)
  {
    var others := MasteredWords(words) - {word};
    assert MasteredWords(words[word := r]) == if r.mastered then others + {word} else others;
    assert MasteredWords(words) == if old_.mastered then others + {word} else others;
  }

  /** `[...log, x]` unless `x` is already in `log`. */
  function AddOnce(log: seq<WordRef>, x: WordRef): (r: seq<WordRef>)
    ensures x in r
    ensures log <= r && |r| == |log| + (if x in log then 0 else 1)
    ensures forall y :: y in log ==> y in r
    ensures forall y :: y in r ==> y in log || y == x
    ensures Distinct(log) ==> Distinct(r)
  {
    if x in log then log else log + [x]
  }

  /** The daily log after practising (category, word) on `today`: a new day
      opens a new entry; otherwise the pair joins today's entry unless it is
      already there. */
  function LogPractice(sessions: seq<DaySession>, last: Option<LastSession>, category: string, word: string, today: int): (r: seq<DaySession>)
    requires last.Some? && last.value.date == today ==> |sessions| > 0
    ensures |r| > 0 && WordRef(category, word) in r[|r| - 1].wordsPracticed
    ensures last.None? || last.value.date != today ==>
      r == sessions + [DaySession(today, [WordRef(category, word)])]
    ensures last.Some? && last.value.date == today ==>
      |r| == |sessions| && r[..|r| - 1] == sessions[..|sessions| - 1] &&
      r[|r| - 1].date == sessions[|sessions| - 1].date &&
      r[|r| - 1].wordsPracticed == AddOnce(sessions[|sessions| - 1].wordsPracticed, WordRef(category, word))
    ensures (forall i :: 0 <= i < |sessions| ==> Distinct(sessions[i].wordsPracticed)) ==>
      forall i :: 0 <= i < |r| ==> Distinct(r[i].wordsPracticed)
  {
    var ref := WordRef(category, word);
    if last.None? || last.value.date != today then
      sessions + [DaySession(today, [ref])]
    else
      var current := sessions[|sessions| - 1];
      sessions[|sessions| - 1 := current.(wordsPracticed := AddOnce(current.wordsPracticed, ref))]
  }

  /** The stored word record before a practice, or the defaults for a word
      never practised. */
  function WordBefore(cats: map<string, CategoryData>, category: string, word: string): WordData {
    if category in cats && word in cats[category].words then cats[category].words[word] else NewWord()
  }

  function CategoryBefore(cats: map<string, CategoryData>, category: string): CategoryData {
    if category in cats then cats[category] else NewCategory()
  }

  /** Whether practising `word` of `category` masters it now. */
  function NewlyMastered(cats: map<string, CategoryData>, category: string, word: string, completed: bool, today: int): (r: bool)
    ensures r ==> completed && PracticeWord(WordBefore(cats, category, word), completed, today).mastered
  {
    var before := WordBefore(cats, category, word);
    PracticeWord(before, completed, today).mastered && !before.mastered
  }

  /** The category records after practising `word` of `category`: the
      category and the word are created when missing, the word's record is
      replaced by the practised one, `practiced` is recounted and `mastered`
      bumped when the word is newly mastered; nothing else changes. */
  function AfterPractice(cats: map<string, CategoryData>, category: string, word: string, completed: bool, today: int): (r: map<string, CategoryData>)
    ensures category in r && word in r[category].words
    ensures r[category].words[word] == PracticeWord(WordBefore(cats, category, word), completed, today)
    ensures r.Keys == cats.Keys + {category}
    ensures forall c :: c in cats && c != category ==> r[c] == cats[c]
    ensures forall w :: w in r[category].words && w != word ==>
      && w in CategoryBefore(cats, category).words
      && r[category].words[w] == CategoryBefore(cats, category).words[w]
    ensures forall w :: w in CategoryBefore(cats, category).words ==> w in r[category].words
    ensures r[category].practiced == |r[category].words|
    ensures r[category].mastered == CategoryBefore(cats, category).mastered + (if NewlyMastered(cats, category, word, completed, today) then 1 else 0)
  {
    var cat := CategoryBefore(cats, category);
    var words := cat.words[word := PracticeWord(WordBefore(cats, category, word), completed, today)];
    var newly := NewlyMastered(cats, category, word, completed, today);
    cats[category := CategoryData(|words|, cat.mastered + (if newly then 1 else 0), words)]
  }

  /** In a consistent tracker a word becomes mastered exactly on a successful
      practice that completes its fifth step. */
  lemma NewlyMasteredOnFifthStep(cats: map<string, CategoryData>, order: seq<string>, totalPracticed: int, totalMastered: int,
                                 category: string, word: string, completed: bool, today: int)
    requires Consistent(cats, order, totalPracticed, totalMastered)
    ensures NewlyMastered(cats, category, word, completed, today) <==>
      completed && WordBefore(cats, category, word).masteryProgress == MasteryGoal - 1
  {
    if category in cats {
      assert CategoryOk(cats[category]);
    }
  }

  /** The category enumeration after practising in `category`: a new
      category is enumerated last. */
  function OrderAfter(cats: map<string, CategoryData>, order: seq<string>, category: string): seq<string> {
    if category in cats then order else order + [category]
  }

  /** Whether `word` of `category` has never been practised. */
  predicate IsNewWord(cats: map<string, CategoryData>, category: string, word: string) {
    !(category in cats && word in cats[category].words)
  }

  /** Recording a practice keeps the tracker's counters consistent with its
      word records: `totalPracticed` grows by one exactly when the word is
      practised for the first time, and `totalMastered` by one exactly when
      the word is newly mastered. */
  lemma PracticeKeepsConsistent(cats: map<string, CategoryData>, order: seq<string>, totalPracticed: int, totalMastered: int,
                                category: string, word: string, completed: bool, today: int)
    requires Consistent(cats, order, totalPracticed, totalMastered)
    ensures SumOver(OrderAfter(cats, order, category), AfterPractice(cats, category, word, completed, today), Practiced) ==
      totalPracticed + (if IsNewWord(cats, category, word) then 1 else 0)
    ensures Consistent(AfterPractice(cats, category, word, completed, today), OrderAfter(cats, order, category),
                       totalPracticed + (if IsNewWord(cats, category, word) then 1 else 0),
                       totalMastered + (if NewlyMastered(cats, category, word, completed, today) then 1 else 0))
  {
    var cats' := AfterPractice(cats, category, word, completed, today);
    CategoryStaysOk(cats, category, word, completed, today);
    var updated := cats'[category];
    assert cats' == cats[category := updated];
    SumAfterUpdate(cats, order, category, updated, MasteredIn);
    SumAfterUpdate(cats, order, category, updated, Practiced);
  }

  /** Replacing or adding one category, enumerated last when new, changes a
      sum over the categories by the difference it makes. */
  lemma SumAfterUpdate(cats: map<string, CategoryData>, order: seq<string>, category: string, updated: CategoryData, k: Counter)
    requires Distinct(order) && forall c :: c in cats <==> c in order
    ensures var order' := OrderAfter(cats, order, category);
      && Distinct(order')
      && (forall c :: c in cats[category := updated] <==> c in order')
      && SumOver(order', cats[category := updated], k) ==
         SumOver(order, cats, k) - (if category in cats then CountOf(cats[category], k) else 0) + CountOf(updated, k)
  {
    if category in cats {
      SumOverUpdate(order, cats, category, updated, k);
    } else {
      SumOverFrame(order, cats, category, updated, k);
      SumOverAppend(order, cats[category := updated], category, k);
    }
  }

  /** The practised category stays consistent, and its `practiced` count
      grows by one exactly for a word practised for the first time. */
  lemma CategoryStaysOk(cats: map<string, CategoryData>, category: string, word: string, completed: bool, today: int)
    requires category in cats ==> CategoryOk(cats[category])
    ensures var updated := AfterPractice(cats, category, word, completed, today)[category];
      && CategoryOk(updated)
      && updated.practiced == CategoryBefore(cats, category).practiced + (if IsNewWord(cats, category, word) then 1 else 0)
      && updated.mastered == CategoryBefore(cats, category).mastered + (if NewlyMastered(cats, category, word, completed, today) then 1 else 0)
  {
    var cat := CategoryBefore(cats, category);
    var before := WordBefore(cats, category, word);
    var w := PracticeWord(before, completed, today);
    var updated := AfterPractice(cats, category, word, completed, today)[category];
    assert updated.words == cat.words[word := w];
    MasteredWordsAfterPractice(cat.words, word, before, w);
    PracticeKeepsWordOk(before, completed, today);
  }

  /** The progress tracker's state. */
  class ProgressTracker {
    var categories: map<string, CategoryData>
    var categoryOrder: seq<string>
    var totalPracticed: int
    var totalMastered: int
    var lastSession: Option<LastSession>
    var sessions: seq<DaySession>
    var achievements: seq<Achievement>

    ghost predicate Valid()
      reads this
    {
      CountsValid() && LogValid()
    }

    /** The counters agree with the word records and one achievement is
        recorded per mastered word. */
    ghost predicate CountsValid()
      reads this
    {
      && Consistent(categories, categoryOrder, totalPracticed, totalMastered)
      && |achievements| == totalMastered
    }

    /** The newest day in the log is the day of the last practice, and no day
        lists a word twice. */
    ghost predicate LogValid()
      reads this
    {
      && (lastSession.Some? ==> |sessions| > 0 && sessions[|sessions| - 1].date == lastSession.value.date)
      && (forall i :: 0 <= i < |sessions| ==> Distinct(sessions[i].wordsPracticed))
    }

    ghost predicate IsDefault()
      reads this
    {
      && categories == map[] && categoryOrder == []
      && totalPracticed == 0 && totalMastered == 0
      && lastSession == None && sessions == [] && achievements == []
    }

    /** `loadProgress` when nothing is stored: the default structure. */
    constructor ()
      ensures Valid() && IsDefault()
    {
      categories := map[];
      categoryOrder := [];
      totalPracticed := 0;
      totalMastered := 0;
      lastSession := None;
      sessions := [];
      achievements := [];
    }

    /** `resetProgress`: when the user confirms the prompt, back to the
        defaults; otherwise nothing changes. */
    method ResetProgress(confirmed: bool)
      requires Valid()
      modifies this
      ensures Valid()
      ensures confirmed ==> IsDefault()
      ensures !confirmed ==>
        && categories == old(categories) && categoryOrder == old(categoryOrder)
        && totalPracticed == old(totalPracticed) && totalMastered == old(totalMastered)
        && lastSession == old(lastSession) && sessions == old(sessions) && achievements == old(achievements)
    {
      if confirmed {
        categories := map[];
        categoryOrder := [];
        totalPracticed := 0;
        totalMastered := 0;
        lastSession := None;
        sessions := [];
        achievements := [];
      }
    }

    /** `recordPractice(category, word, completed)` on calendar day `today`. */
    method RecordPractice(category: string, word: string, completed: bool, today: int) returns (w: WordData)
      requires Valid()
      modifies this
      ensures Valid()
      ensures categories == AfterPractice(old(categories), category, word, completed, today)
      ensures categoryOrder == OrderAfter(old(categories), old(categoryOrder), category)
      ensures w == categories[category].words[word]
      ensures totalPracticed == old(totalPracticed) + (if IsNewWord(old(categories), category, word) then 1 else 0)
      ensures var newly := NewlyMastered(old(categories), category, word, completed, today);
        && totalMastered == old(totalMastered) + (if newly then 1 else 0)
        && achievements == old(achievements) + (if newly then [Mastery(category, word, today)] else [])
      ensures sessions == LogPractice(old(sessions), old(lastSession), category, word, today)
      ensures lastSession == Some(LastSession(today, category, word))
    {
      PracticeKeepsConsistent(categories, categoryOrder, totalPracticed, totalMastered, category, word, completed, today);
      w := CountPractice(category, word, completed, today);
      LogSession(category, word, today);
    }

    /** The counting half of `recordPractice`: create the category and the
        word record when missing, count the practice, move mastery, recount
        the total, and record an achievement for a newly mastered word. */
    method CountPractice(category: string, word: string, completed: bool, today: int) returns (w: WordData)
      modifies this
      ensures categories == AfterPractice(old(categories), category, word, completed, today)
      ensures categoryOrder == OrderAfter(old(categories), old(categoryOrder), category)
      ensures w == categories[category].words[word]
      ensures totalPracticed == SumOver(categoryOrder, categories, Practiced)
      ensures var newly := NewlyMastered(old(categories), category, word, completed, today);
        && totalMastered == old(totalMastered) + (if newly then 1 else 0)
        && achievements == old(achievements) + (if newly then [Mastery(category, word, today)] else [])
      ensures sessions == old(sessions) && lastSession == old(lastSession)
    {
      var newly := NewlyMastered(categories, category, word, completed, today);
      categoryOrder := OrderAfter(categories, categoryOrder, category);
      categories := AfterPractice(categories, category, word, completed, today);
      totalPracticed := SumOver(categoryOrder, categories, Practiced);
      totalMastered := totalMastered + (if newly then 1 else 0);
      achievements := if newly then achievements + [Mastery(category, word, today)] else achievements;
      w := categories[category].words[word];
    }

    /** The logging half of `recordPractice`: add the word to today's entry
        of the daily log and remember it as the last practice. */
    method LogSession(category: string, word: string, today: int)
      requires LogValid()
      modifies this
      ensures LogValid()
      ensures sessions == LogPractice(old(sessions), old(lastSession), category, word, today)
      ensures lastSession == Some(LastSession(today, category, word))
      ensures categories == old(categories) && categoryOrder == old(categoryOrder)
      ensures totalPracticed == old(totalPracticed) && totalMastered == old(totalMastered)
      ensures achievements == old(achievements)
    {
      sessions := LogPractice(sessions, lastSession, category, word, today);
      lastSession := Some(LastSession(today, category, word));
    }
  }

  /** The rounded mastery percentage shown in the summary and the report: 0
      when nothing has been practised. */
  function MasteryRate(mastered: nat, practiced: nat): (r: int)
    ensures practiced == 0 ==> r == 0
    ensures 0 <= r
    ensures mastered <= practiced ==> r <= 100
    ensures practiced > 0 ==> (2 * practiced) * r <= 200 * mastered + practiced < (2 * practiced) * r + 2 * practiced
  {
    if practiced > 0 then Percent(mastered, practiced) else 0
  }

  /** The rate a consistent tracker shows is a percentage. */
  lemma MasteryRateIsPercentage(cats: map<string, CategoryData>, order: seq<string>, totalPracticed: int, totalMastered: int)
    requires Consistent(cats, order, totalPracticed, totalMastered)
    ensures 0 <= totalMastered <= totalPracticed
    ensures 0 <= MasteryRate(totalMastered, totalPracticed) <= 100
  {
    MasteredAtMostPracticed(cats, order, totalPracticed, totalMastered);
  }

  /** So is the rate shown for each category. */
  lemma CategoryRateIsPercentage(c: CategoryData)
    requires CategoryOk(c)
    ensures 0 <= c.mastered <= c.practiced
    ensures 0 <= MasteryRate(c.mastered, c.practiced) <= 100
  {
    MasteredWordsBounded(c);
  }

  /** The calendar days with a logged session. */
  function Days(sessions: seq<DaySession>): set<int> {
    set i | 0 <= i < |sessions| :: sessions[i].date
  }

  /** The newest session's day. */
  function LatestDay(sessions: seq<DaySession>): (d: int)
    requires |sessions| > 0
    ensures d in Days(sessions)
    ensures forall i :: 0 <= i < |sessions| ==> sessions[i].date <= d
  {
    if |sessions| == 1 then sessions[0].date
    else
      var rest := LatestDay(sessions[1..]);
      assert forall i :: 1 <= i < |sessions| ==> sessions[i] == sessions[1..][i - 1];
      if sessions[0].date >= rest then sessions[0].date else rest
  }

  /** The oldest session's day. */
  ghost function EarliestDay(sessions: seq<DaySession>): (d: int)
    requires |sessions| > 0
    ensures forall i :: 0 <= i < |sessions| ==> d <= sessions[i].date
  {
    if |sessions| == 1 then sessions[0].date
    else
      var rest := EarliestDay(sessions[1..]);
      assert forall i :: 1 <= i < |sessions| ==> sessions[i] == sessions[1..][i - 1];
      if sessions[0].date <= rest then sessions[0].date else rest
  }

  /** The `while (checking)` loop of `calculateStreak`: how many consecutive
      days with a session come directly before `start`. */
  method CountBack(sessions: seq<DaySession>, start: int) returns (run: nat)
    requires |sessions| > 0
    ensures forall d :: start - run <= d < start ==> d in Days(sessions)
    ensures start - run - 1 !in Days(sessions)
  {
    var days := Days(sessions);
    ghost var earliest := EarliestDay(sessions);
    var checkDate := start;
    run := 0;
    var checking := true;
    while checking
      invariant checkDate <= start
      invariant checking ==> run == start - checkDate
      invariant !checking ==> run == start - checkDate - 1 && checkDate !in days
      invariant forall d :: start - run <= d < start ==> d in days
      decreases if checking then Max(checkDate - earliest, 0) + 1 else 0
    {
      checkDate := checkDate - 1;
      if checkDate in days {
        run := run + 1;
      } else {
        checking := false;
      }
    }
  }

  /** `calculateStreak` on calendar day `today`. With a session today the
      streak is today plus the run of consecutive earlier days with sessions.
      When the newest session was yesterday, counting starts two days ago and
      yesterday itself is not counted. Otherwise the streak is 0. */
  method CalculateStreak(sessions: seq<DaySession>, today: int) returns (streak: nat)
    ensures |sessions| == 0 ==> streak == 0
    ensures |sessions| > 0 && LatestDay(sessions) != today && LatestDay(sessions) != today - 1 ==> streak == 0
    ensures |sessions| > 0 && LatestDay(sessions) == today ==>
      && streak >= 1
      && (forall d :: today - streak < d <= today ==> d in Days(sessions))
      && today - streak !in Days(sessions)
    ensures |sessions| > 0 && LatestDay(sessions) == today - 1 ==>
      && (forall d :: today - streak - 2 < d <= today - 2 ==> d in Days(sessions))
      && today - streak - 2 !in Days(sessions)
  {
    if |sessions| == 0 {
      return 0;
    }
    var latest := LatestDay(sessions);
    var hasSessionToday := latest == today;
    if !hasSessionToday && latest != today - 1 {
      return 0;
    }
    var start := if hasSessionToday then today else today - 1;
    var run := CountBack(sessions, start);
    streak := (if hasSessionToday then 1 else 0) + run;
  }

  /** The streak with yesterday counted like today: the length of the run of
      consecutive days with sessions that ends on the newest session's day,
      when that day is today or yesterday, and 0 otherwise. */
  method CalculateStreakCountingYesterday(sessions: seq<DaySession>, today: int) returns (streak: nat)
    ensures |sessions| == 0 ==> streak == 0
    ensures |sessions| > 0 && LatestDay(sessions) != today && LatestDay(sessions) != today - 1 ==> streak == 0
    ensures |sessions| > 0 && (LatestDay(sessions) == today || LatestDay(sessions) == today - 1) ==>
      var latest := LatestDay(sessions);
      && streak >= 1
      && (forall d :: latest - streak < d <= latest ==> d in Days(sessions))
      && latest - streak !in Days(sessions)
  {
    if |sessions| == 0 {
      return 0;
    }
    var latest := LatestDay(sessions);
    if latest != today && latest != today - 1 {
      return 0;
    }
    var run := CountBack(sessions, latest);
    streak := 1 + run;
  }

  /** A learner whose only session was yesterday: `calculateStreak` reports
      0, though yesterday's session is a one-day streak that is still alive. */
  method StreakIgnoresYesterday(today: int) returns (asWritten: nat, counted: nat)
    ensures asWritten == 0 && counted == 1
  {
    var sessions := [DaySession(today - 1, [])];
    assert LatestDay(sessions) == today - 1;
    assert Days(sessions) == {today - 1};
    asWritten := CalculateStreak(sessions, today);
    counted := CalculateStreakCountingYesterday(sessions, today);
    assert today - 2 !in Days(sessions);
  }
}
