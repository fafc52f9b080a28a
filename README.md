# Sign-language learning: spaced repetition, progress and quiz core

A Dafny model of the three JavaScript components that hold the logic of the
sign-language learning site.

- **Spaced repetition** (`static/js/spaced_repetition.js`). The
  `SpacedRepetitionSystem` class keeps a table of flashcards keyed by
  `"<category>-<word>"`. It reschedules a card after each review with an SM-2
  variant: ease factor, interval, repetitions and due date. It lists the due
  cards, most overdue first. It also runs a study session, which deals a
  shuffled deck of new and review cards, marks entries as answered and reports
  statistics.
- **Progress tracking** (`static/js/progress_tracker.js`). The
  `ProgressTracker` class counts practices per category and word. A word is
  mastered after five successful practices, and mastery is permanent. The
  class keeps the derived category and overall totals, one achievement per
  mastered word, and a log of the words practised on each calendar day. It
  computes the day streak and the mastery rate.
- **Quiz** (`static/js/quiz.js`). This part chooses exercises by category and
  difficulty, falling back to easier levels and then to everything. It builds
  recognition, translation and matching questions, grades answers, computes
  the score and keeps the quiz history capped at fifty entries.

The files are:
- `common.dfy`: an option type, `Math.round`, the rounded percentage, and
  sequence filtering and counting.
- `scheduler.dfy`: the review formula for one card.
- `spaced_repetition.dfy`: the card table, the due-card query, the session and
  the class.
- `progress.dfy`: the practice counters, the daily log, the class, the
  mastery rate and the streak.
- `quiz.dfy`: selection, question generation, grading, the score and the
  history.

Modelling conventions:
- The spaced-repetition system measures time as integer millisecond
  timestamps (`now`). A due date is `now + interval * 86400000`.
- The progress tracker measures time in calendar-day numbers (`today`), since
  it only compares dates by day.
- The ease factor is an exact `real`.
- `Math.round(x)` is `floor(x + 1/2)`.
- A JavaScript object used as a dictionary is a `map` plus a sequence of its
  keys in insertion order (`cardOrder`, `categoryOrder`). That is the order in
  which `Object.entries` and `Object.values` enumerate keys that are not array
  indices.
- Every `Math.random` choice is a nondeterministic choice in range
  (`var j :| 0 <= j <= i`). Only permutation and membership properties are
  claimed about shuffled results.
- What the code reads from the page or the clock is passed in as a parameter:
  the time, the checked option, the learner's matches, the time spent, the
  exercises found on the page, and the answer to the reset prompt.

## Model

| member | source | states |
|---|---|---|
| Common.RoundHalfUp | static/js/spaced_repetition.js:78 | the result is the integer nearest to x, halves rounded up |
| Common.Percent | static/js/progress_tracker.js:281 | the result is the integer nearest to 100·part/whole, halves up; it is ≥ 0, and ≤ 100 when part ≤ whole |
| Common.Filter | static/js/spaced_repetition.js:135-136 | keeps exactly the elements satisfying the predicate, never more than the input |
| Common.FilterMultiset | static/js/spaced_repetition.js:135-136 | `filter` keeps each element satisfying the predicate exactly as often as it occurs in the input, and no other element |
| Common.FilterAppend | static/js/spaced_repetition.js:135-136 | filtering a concatenation is the concatenation of the filtered parts, so kept elements stay in input order |
| Common.Count | static/js/spaced_repetition.js:206 | equals the length of the filtered sequence, so it is at most the input length |
| Common.JsPrefix | static/js/spaced_repetition.js:139-141 | `slice(0, end)`: a prefix of length min(end, n) for end ≥ 0, and max(0, n + end) for a negative end |
| Scheduler.NewCard | static/js/spaced_repetition.js:41-49 | a new card has ease 2.5, interval 0 and repetitions 0, is due now and has never been reviewed |
| Scheduler.EaseDelta | static/js/spaced_repetition.js:88 | quality 5 adds 0.1 and no quality up to 5 adds more (EaseDeltaTable gives every value) |
| Scheduler.NextEase | static/js/spaced_repetition.js:88 | the new ease is the old ease plus the quality adjustment, clamped from below at 1.3 |
| Scheduler.SuccessInterval | static/js/spaced_repetition.js:73-79 | after 0 repetitions the interval is 1 day, after 1 it is 6, otherwise round(interval × old ease) |
| Scheduler.Review | static/js/spaced_repetition.js:67-93 | quality ≥ 3 adds a repetition and sets the success interval; quality < 3 resets repetitions and interval to 0; ease from the old ease; due = now + interval days; lastReviewed = now |
| Scheduler.NewCardScheduled | static/js/spaced_repetition.js:41-49 | a new card is in the reachable scheduling states |
| Scheduler.GrowthAtLeastTwoDays | static/js/spaced_repetition.js:78 | with ease ≥ 1.3, rounding interval × ease adds at least two days to an interval of 6 or more |
| Scheduler.ReviewKeepsScheduled | static/js/spaced_repetition.js:71-88 | every review keeps a card in the reachable states (ease ≥ 1.3; intervals 0, 1 and ≥ 6 for 0, 1 and ≥ 2 repetitions) |
| Scheduler.SuccessLengthensInterval | static/js/spaced_repetition.js:71-80 | a correct response always makes a reachable card's interval strictly longer |
| Scheduler.EaseDeltaMonotone | static/js/spaced_repetition.js:88 | the ease adjustment is non-decreasing in the quality over 0..5 |
| Scheduler.NextEaseMonotone | static/js/spaced_repetition.js:88 | a better answer never gives a smaller new ease |
| Scheduler.EaseDeltaTable | static/js/spaced_repetition.js:88 | the adjustments for qualities 5..0 are +0.1, 0, −0.14, −0.32, −0.54 and −0.8 |
| Scheduler.QualityFourKeepsEase | static/js/spaced_repetition.js:88 | quality 4 leaves an ease of at least 1.3 unchanged |
| Scheduler.ScheduleExamples | static/js/spaced_repetition.js:71-93 | the schedule for successive correct answers at ease 2.5 is 1, 6 and then 15 days |
| SpacedRepetition.CardId | static/js/spaced_repetition.js:37 | the key is the category, a hyphen and the word, in that order |
| SpacedRepetition.CardIdCollides | static/js/spaced_repetition.js:37 | two different (category, word) pairs can share one key |
| SpacedRepetition.TableSize | static/js/spaced_repetition.js:227 | the number of keys equals the length of the enumeration order |
| SpacedRepetition.Listing | static/js/spaced_repetition.js:115-117 | the entries are listed in enumeration order, each tagged with its key |
| SpacedRepetition.DueListing | static/js/spaced_repetition.js:115-117 | no more entries than keys, each due at `now` |
| SpacedRepetition.InsertByDue | static/js/spaced_repetition.js:120 | inserting one card lengthens the list by one |
| SpacedRepetition.SortByDue | static/js/spaced_repetition.js:120 | the sort keeps the length (see SortByDueCorrect for order and permutation) |
| SpacedRepetition.SortByDueCorrect | static/js/spaced_repetition.js:120 | the sort returns a permutation of its input, ordered by due date |
| SpacedRepetition.DueCardsFacts | static/js/spaced_repetition.js:115-120 | the sorted due listing holds every due card of the table and nothing else |
| SpacedRepetition.GetDueCards | static/js/spaced_repetition.js:111-123 | at most `limit` cards (the full contract is GetDueCardsCorrect) |
| SpacedRepetition.GetDueCardsCorrect | static/js/spaced_repetition.js:111-123 | `getDueCards` returns only due cards with their stored state, sorted by due date, min(limit, #due) of them; all due cards when fewer than limit; every due card left out is due no earlier than every card kept; no card is returned more often than it occurs in the due listing |
| SpacedRepetition.DueCardsStored | static/js/spaced_repetition.js:115-122 | every card returned is due and equal to the stored card under its id, and the result is sorted by due date |
| SpacedRepetition.DueCardsComplete | static/js/spaced_repetition.js:115-122 | with fewer than `limit` cards returned, every due card of the table is among them |
| SpacedRepetition.DueCardsEarliest | static/js/spaced_repetition.js:120-122 | a due card cut off by the limit is due no earlier than any card returned |
| SpacedRepetition.DueCardsFromListing | static/js/spaced_repetition.js:115-122 | the result is a sub-multiset of the due listing: sorting and slicing repeat no card |
| SpacedRepetition.SelectSession | static/js/spaced_repetition.js:135-141 | new cards are a prefix of the due new cards and review cards a prefix of the due review cards, with the sizes `slice` gives; the deck holds at most totalCardLimit cards when 0 ≤ newCardLimit ≤ totalCardLimit |
| SpacedRepetition.SessionPlan | static/js/spaced_repetition.js:132-141 | the selection from the first 20 due cards; with 0 ≤ newCardLimit ≤ totalCardLimit it has at most totalCardLimit cards |
| SpacedRepetition.DefaultSessionPlan | static/js/spaced_repetition.js:130-141 | with the default limits used by the study screen: min(5, due new cards) new cards, at most 20 cards in all, and the review cards fill the rest up to 20 |
| SpacedRepetition.Snapshots | static/js/spaced_repetition.js:144-149 | one entry per selected card, same key and card, unanswered, with no quality |
| SpacedRepetition.ShuffledDeckFresh | static/js/spaced_repetition.js:144-152 | any permutation of a fresh deck has the same size and only unanswered entries |
| SpacedRepetition.FirstUnanswered | static/js/spaced_repetition.js:179 | the index of the first unanswered entry, or none when every entry is answered |
| SpacedRepetition.GetNextCard | static/js/spaced_repetition.js:177-181 | none iff every entry is answered; otherwise the first unanswered entry of the session |
| SpacedRepetition.FindById | static/js/spaced_repetition.js:189 | the index of the first entry with the key, or none when no entry has it |
| SpacedRepetition.MarkAnswered | static/js/spaced_repetition.js:188-194 | the first entry with the key becomes answered with that quality; all other entries stay the same, and so does the session when no entry has the key |
| SpacedRepetition.QualitySum | static/js/spaced_repetition.js:213 | the quality total is 0 when no entry is answered (QualitySumBounds bounds it by 5 per answer) |
| SpacedRepetition.QualitySumBounds | static/js/spaced_repetition.js:213 | with qualities in 0..5, the total lies between 0 and 5 × the answered count |
| SpacedRepetition.SessionStatsOf | static/js/spaced_repetition.js:204-215 | totalCards is the session length, cardsCompleted the number of answered entries, and the average is the quality sum over cardsCompleted, or 0 when none is answered |
| SpacedRepetition.AverageQualityInRange | static/js/spaced_repetition.js:210-215 | when answers are rated 0..5, the reported average lies in 0..5 |
| SpacedRepetition.GetStats | static/js/spaced_repetition.js:226-240 | counts all cards, cards with repetitions, cards with interval ≥ 30 days and due cards |
| SpacedRepetition.MasteredHaveRepetitions | static/js/spaced_repetition.js:228-229 | in a table of reachable cards, mastered ≤ cards with repetitions ≤ total |
| SpacedRepetition.SpacedRepetitionSystem.constructor | static/js/spaced_repetition.js:9-14 | starts from the stored table, with an empty session and no session in progress |
| SpacedRepetition.SpacedRepetitionSystem.AddCard | static/js/spaced_repetition.js:36-54 | an absent key gets a new card appended to the enumeration order; a present key leaves the table unchanged; the card under the key is returned |
| SpacedRepetition.SpacedRepetitionSystem.ProcessReview | static/js/spaced_repetition.js:61-104 | an unknown key returns none and changes nothing; otherwise only that card is replaced by its review, and during a session its entry is marked answered |
| SpacedRepetition.SpacedRepetitionSystem.StartSession | static/js/spaced_repetition.js:130-161 | the deck is a permutation of the selection from the first 20 due cards, every entry unanswered; the session is in progress; totalCards = newCards + reviewCards |
| SpacedRepetition.SpacedRepetitionSystem.DealSession | static/js/spaced_repetition.js:144-160 | the session becomes a permutation of the snapshots of the selected new and review cards, every entry unanswered, in progress, with the counts reported; the system invariant is kept |
| SpacedRepetition.SpacedRepetitionSystem.ShuffleSession | static/js/spaced_repetition.js:166-172 | the session is permuted: same length, same multiset of entries; the system invariant is kept |
| SpacedRepetition.SpacedRepetitionSystem.UpdateSessionCard | static/js/spaced_repetition.js:188-194 | the session becomes MarkAnswered of the old session; the system invariant is kept |
| SpacedRepetition.SpacedRepetitionSystem.EndSession | static/js/spaced_repetition.js:199-221 | without a session, only the message; otherwise the statistics of the old session, after which the session is cleared and inactive |
| Progress.NewWord | static/js/progress_tracker.js:56-62 | a new word record: never practised, no date, not mastered, progress 0 |
| Progress.NewCategory | static/js/progress_tracker.js:47-53 | a new category record: no words, both counters 0 |
| Progress.PracticeWord | static/js/progress_tracker.js:65-99 | timesPracticed + 1 and lastPracticed = today; a success on an unmastered word adds a step and masters it at 5; a failure removes a step only from an unmastered word above 0; a mastered word keeps its mastery and its progress |
| Progress.PracticeKeepsWordOk | static/js/progress_tracker.js:72-99 | progress stays within 0..5, with mastered exactly at 5 |
| Progress.SuccessesStepTowardsMastery | static/js/progress_tracker.js:72-93 | n successes on an unmastered word give progress min(p + n, 5), mastered iff p + n ≥ 5 |
| Progress.FiveSuccessesMaster | static/js/progress_tracker.js:71-78 | a new word is mastered after five successes and not after four |
| Progress.MasteredStaysMastered | static/js/progress_tracker.js:73-99 | no run of practices unmasters a word or changes its progress |
| Progress.MasteredWordsBounded | static/js/progress_tracker.js:102 | in a consistent category, 0 ≤ mastered ≤ practiced |
| Progress.MasteredAtMostPracticed | static/js/progress_tracker.js:102-105 | in a consistent tracker, 0 ≤ totalMastered ≤ totalPracticed |
| Progress.MasteredWordsAfterPractice | static/js/progress_tracker.js:76-79 | a practice changes the number of mastered words by one exactly when the word is newly mastered |
| Progress.AddOnce | static/js/progress_tracker.js:117-119 | the old list is kept as a prefix; the pair is appended only when absent (length + 1), otherwise nothing changes; distinctness is kept |
| Progress.LogPractice | static/js/progress_tracker.js:108-120 | a new day appends a one-word entry; the same day keeps the last entry's date and replaces its words by AddOnce of them, leaving the earlier entries alone; no day lists a pair twice |
| Progress.NewlyMastered | static/js/progress_tracker.js:73-78 | a word is newly mastered only on a successful practice that masters it |
| Progress.AfterPractice | static/js/progress_tracker.js:47-102 | the category and the word exist afterwards; the word's record is its practised record; every other category is unchanged; the category keeps every word it had, each other word with the same record, and gains no word but the practised one; `practiced` is recounted as the number of its words, whatever was stored, and `mastered` goes up by one exactly when the word is newly mastered |
| Progress.NewlyMasteredOnFifthStep | static/js/progress_tracker.js:74-78 | in a consistent tracker, a word is newly mastered iff the practice succeeds at progress 4 |
| Progress.PracticeKeepsConsistent | static/js/progress_tracker.js:101-105 | after a practice the counters still agree with the word records; totalPracticed grows by one iff the word is new, totalMastered iff it is newly mastered |
| Progress.SumOver | static/js/progress_tracker.js:105 | the sum of one counter over the categories is never negative when no category's counter is |
| Progress.SumAfterUpdate | static/js/progress_tracker.js:105 | replacing or adding one category changes the sum over the categories by the difference |
| Progress.CategoryStaysOk | static/js/progress_tracker.js:102 | the practised category stays consistent; `practiced` grows by one iff the word is new, `mastered` iff it is newly mastered |
| Progress.ProgressTracker.constructor | static/js/progress_tracker.js:20-28 | the default state: no categories, zero totals, no last session, empty log and achievements |
| Progress.ProgressTracker.ResetProgress | static/js/progress_tracker.js:141-163 | after confirmation, the default state; otherwise nothing changes |
| Progress.ProgressTracker.RecordPractice | static/js/progress_tracker.js:45-136 | the records, enumeration, totals, achievements, log and last session become their after-practice values, and the tracker stays consistent |
| Progress.ProgressTracker.CountPractice | static/js/progress_tracker.js:47-105 | updates the categories and totals, appending an achievement iff the word is newly mastered, and leaves the log alone |
| Progress.ProgressTracker.LogSession | static/js/progress_tracker.js:107-127 | the log becomes LogPractice of the old log and the last session becomes this practice, with the log invariant kept |
| Progress.MasteryRate | static/js/progress_tracker.js:281 | 0 when nothing is practised; otherwise the nearest integer to 100·mastered/practiced; at most 100 when mastered ≤ practiced |
| Progress.MasteryRateIsPercentage | static/js/progress_tracker.js:496 | the overall rate of a consistent tracker lies in 0..100 |
| Progress.CategoryRateIsPercentage | static/js/progress_tracker.js:301 | each category's rate lies in 0..100 |
| Progress.LatestDay | static/js/progress_tracker.js:429-435 | the newest session's day is a logged day, and no logged day is later |
| Progress.CountBack | static/js/progress_tracker.js:466-477 | the days counted directly before the start all have sessions, and the day before them has none |
| Progress.CalculateStreak | static/js/progress_tracker.js:423-480 | 0 without sessions or when the newest is neither today nor yesterday; with a session today, the run of consecutive session days ending today; when the newest is yesterday, the run ending two days ago |
| Progress.CalculateStreakCountingYesterday | static/js/progress_tracker.js:451-464 | when the newest session is today or yesterday, the length of the run of consecutive session days ending on it |
| Progress.StreakIgnoresYesterday | static/js/progress_tracker.js:438-464 | a single session yesterday gives 0 as written and 1 when yesterday is counted |
| Quiz.ExercisesOrDefault | static/js/quiz.js:192-205 | never empty; the page's exercises when there are any |
| Quiz.IndexOf | static/js/quiz.js:216 | −1 iff absent; otherwise the first position |
| Quiz.DefaultExercises | static/js/quiz.js:193-204 | the default set has ten exercises, each at one of the three levels |
| Quiz.AtLevel | static/js/quiz.js:208-211 | exactly the exercises of a selected category at the given level: every one it returns is such an exercise, and every such exercise is returned |
| Quiz.AtLevelMultiset | static/js/quiz.js:208-211 | each eligible exercise is kept exactly as often as it occurs in the exercise list, every other exercise not at all |
| Quiz.Widen | static/js/quiz.js:218-231 | the fallback loop only appends to the pool it starts from |
| Quiz.Selection | static/js/quiz.js:207-237 | the exact-level pool when it has at least ten exercises; otherwise at least ten exercises, or all of them |
| Quiz.Pool | static/js/quiz.js:207-226 | the pool of the chosen level followed by the `j` easiest levels begins with the exact-level pool |
| Quiz.PoolGrows | static/js/quiz.js:226 | each added level only extends the pool, so a larger `j` gives a longer pool |
| Quiz.WidenIsPool | static/js/quiz.js:218-231 | the loop stops at the first pool, in level order, with at least ten exercises, or ends with the pool of every level before the chosen one |
| Quiz.SelectionIsFirstFullPool | static/js/quiz.js:207-237 | the selection is the first pool (chosen level, then beginner, then intermediate, up to the chosen level) with at least ten exercises; all exercises when even the last such pool has fewer than ten |
| Quiz.PoolLevels | static/js/quiz.js:218-226 | after the exact-level exercises, a pool holds only exercises of a selected category at one of the levels added so far |
| Quiz.SelectionNoHarder | static/js/quiz.js:207-237 | either all exercises, or at least ten from the selected categories: all the exact-level ones first, then only ones at levels listed before the chosen one |
| Quiz.SelectExercises | static/js/quiz.js:207-237 | the fallback loop computes Selection |
| Quiz.ShuffleArray | static/js/quiz.js:1001-1006 | the array is permuted in place: same multiset |
| Quiz.Shuffled | static/js/quiz.js:1001-1006 | a shuffled copy has the same length and multiset |
| Quiz.Others | static/js/quiz.js:269-270 | the distractor pool holds exercises with a different word |
| Quiz.PickDistractors | static/js/quiz.js:269-273 | min(3, pool size) distractors taken from the pool |
| Quiz.MakeOptions | static/js/quiz.js:276-277 | the options are the correct answer plus up to three distractors from the pool |
| Quiz.RecognitionQuestion | static/js/quiz.js:268-286 | the question shows the exercise's video, has its word as the answer, and takes its options from other words |
| Quiz.TranslationQuestion | static/js/quiz.js:335-353 | the question shows the exercise's word, has its video as the answer, and takes its options from other exercises' videos |
| Quiz.GenerateRecognitionQuestions | static/js/quiz.js:266-288 | one question per exercise: its video, its word as the answer, and options from other words |
| Quiz.GenerateTranslationQuestions | static/js/quiz.js:333-355 | one question per exercise: its word, its video as the answer, and options from other exercises' videos |
| Quiz.RecognitionAnswerOnce | static/js/quiz.js:269-284 | the correct word appears exactly once among the options, and every other option is a different exercise's word |
| Quiz.JoinCategories | static/js/quiz.js:321 | the label starts with the first exercise's category and ends with the last one's |
| Quiz.PairsOf | static/js/quiz.js:312-315 | one word-video pair per exercise, in order |
| Quiz.GenerateMatchingQuestions | static/js/quiz.js:295-326 | ⌊n/4⌋ questions; question k pairs exercises 4k..4k+3 in order |
| Quiz.CountMatched | static/js/quiz.js:732-737 | the number of pairs whose video the learner matched to the pair's word; equal to the number of pairs iff every pair is matched |
| Quiz.LastPairWins | static/js/quiz.js:742-745 | one more step of the `reduce`: setting the last pair's video keeps the map right for all pairs |
| Quiz.ExpectedMatches | static/js/quiz.js:742-745 | the keys are exactly the pairs' videos, and each video maps to the word of the last pair with that video |
| Quiz.Grade | static/js/quiz.js:703-765 | matching: correctMatches is the count of matched pairs, the expected map is ExpectedMatches of the pairs, correct iff all pairs are matched; choice: the unselected answer is "", correct iff it equals the correct answer |
| Quiz.UnansweredIsWrong | static/js/quiz.js:705-707 | an unselected choice is wrong unless the answer is the empty string |
| Quiz.CorrectCount | static/js/quiz.js:773 | the number of correct answers, at most the number of answers |
| Quiz.ScorePercentage | static/js/quiz.js:775 | the nearest integer to 100·correct/total, in 0..100 when correct ≤ total |
| Quiz.ScoreExtremes | static/js/quiz.js:775 | all correct scores 100, none correct scores 0 |
| Quiz.AppendCapped | static/js/quiz.js:803-815 | the entry is last; the result is the newest min(n+1, 50) entries when n ≤ 50; the cap is kept |
| Quiz.SavesStayCapped | static/js/quiz.js:812-815 | any sequence of saves keeps a history of at most 50 entries, ending with the latest |
| Quiz.QuizHistory.constructor | static/js/quiz.js:801 | the history starts as the stored one |
| Quiz.QuizHistory.SaveQuizHistory | static/js/quiz.js:800-823 | the history becomes AppendCapped of the old history |
| Quiz.QuizState.constructor | static/js/quiz.js:102-132 | the quiz starts with its type, difficulty and questions, at question 0, with no answers |
| Quiz.QuizState.SaveAnswer | static/js/quiz.js:700-766 | appends the graded answer for the current question and changes nothing else |
| Quiz.QuizState.ShowResults | static/js/quiz.js:771-793 | the correct count, the question count and the score (not a number for an empty quiz), with the history extended by the entry |
| Quiz.GenerateQuestions | static/js/quiz.js:191-259 | min(10, pool) exercises drawn from the selection, then questions of the quiz's type; an unknown type gives none |

## Left out

- Storage: `localStorage` and JSON are not modelled (`loadCards`, `saveCards`, `loadProgress`, `saveProgress`, reading and writing the quiz history). Stored state is a constructor parameter.
- Progress.ProgressTracker.constructor: models only the default state of `loadProgress`. A stored progress object is not validated by the source, so no invariant could be assumed for it.
- Presentation: DOM rendering, modals, event listeners, the achievement toast, the progress summary and report HTML, `showStudyInterface` and the quiz's render functions.
- Question texts: the constant `type` and `question` strings of questions are not modelled. The `Question` constructor identifies the type.
- Exercises on the page: reading them from the page (static/js/quiz.js:158-189) is not modelled; the found exercises are a parameter. The same goes for choosing the categories and difficulty in `startQuiz`.
- Randomness: the distribution of `Math.random` is not modelled. The `sort(() => 0.5 - Math.random())` distractor pick is some permutation of the pool; JavaScript's sort with an inconsistent comparator returns some ordering, which the model treats as a permutation.
- Quiz.MakeOptions: does not claim the options are distinct. Two exercises can share a word or a video, so a distractor can repeat another or, in a translation question, equal the correct video.
- Floating point: the ease factor and the averages are exact rationals. IEEE rounding in `easeFactor` updates and in `Math.round` of a quotient is not modelled.
- Dates: calendar dates, time zones and daylight-saving shifts are not modelled. `setDate(getDate() + n)` is taken as exactly n × 86400000 ms, and a `toDateString` comparison as equality of day numbers.
- SpacedRepetition.SpacedRepetitionSystem.ProcessReview: quality is not checked to lie in 0..5, and neither does the source check it. The rating-scale facts (for example AverageQualityInRange) state that condition as a precondition.
- SpacedRepetition.CardIdCollides: keys are plain concatenations, so the model keys by the string and claims no uniqueness of (category, word) per card.
- Object key order: an object key that looks like an array index would be enumerated first in JavaScript. Card keys always contain '-', but category names could be numeric; the model enumerates categories in insertion order.
- Quiz.QuizState.SaveAnswer: requires a current question. The source throws a TypeError when `saveAnswer` runs with no question at the current index, for example on a matching quiz built from fewer than four exercises, which has no questions. That crash is not modelled.
- Time spent: the clock reading behind `timeSpent` is a parameter of ShowResults.

## Findings

| source | as written | input that shows it | evidently intended | confidence | as-written member | corrected member |
|---|---|---|---|---|---|---|
| static/js/progress_tracker.js:451-464 | when the newest session was yesterday, the streak starts at 0 and counting starts the day before yesterday, so yesterday's session is never counted | one session, dated yesterday: the streak is 0, although the streak is still alive (a session today would make it 2) | the run of consecutive session days ending yesterday, counted like a run ending today | medium, not executed | Progress.CalculateStreak, Progress.StreakIgnoresYesterday | Progress.CalculateStreakCountingYesterday |
