/** The quiz: choosing exercises with a fallback to easier levels, building
    recognition, matching and translation questions, grading answers, the
    score, and the capped quiz history. Random choices are nondeterministic;
    answers read from the page are parameters. */
module Quiz {
  import opened Common

  /** `QUIZ_CONFIG.numberOfQuestions`. */
  const NumberOfQuestions: nat := 10

  /** The quiz history keeps at most this many entries. */
  const HistoryLimit: nat := 50

  /** The difficulty levels, easiest first. */
  const DifficultyLevels: seq<string> := ["beginner", "intermediate", "advanced"]

  datatype Exercise = Exercise(category: string, word: string, difficulty: string, videoPath: string)

  /** The exercises used when the page lists none. */
  function DefaultExercises(): (r: seq<Exercise>)
    ensures |r| == 10
    ensures forall k :: 0 <= k < |r| ==> r[k].difficulty in DifficultyLevels
  {
    [ Exercise("Alphabet", "A", "beginner", "/static/videos/sign_language/a.mp4"),
      Exercise("Alphabet", "B", "beginner", "/static/videos/sign_language/b.mp4"),
      Exercise("Alphabet", "C", "beginner", "/static/videos/sign_language/c.mp4"),
      Exercise("Numbers", "1", "beginner", "/static/videos/sign_language/1.mp4"),
      Exercise("Numbers", "2", "beginner", "/static/videos/sign_language/2.mp4"),
      Exercise("Numbers", "3", "beginner", "/static/videos/sign_language/3.mp4"),
      Exercise("Greetings", "Hello", "beginner", "/static/videos/sign_language/hello.mp4"),
      Exercise("Greetings", "Goodbye", "beginner", "/static/videos/sign_language/goodbye.mp4"),
      Exercise("Common Phrases", "Thank you", "intermediate", "/static/videos/sign_language/thank_you.mp4"),
      Exercise("Common Phrases", "Please", "intermediate", "/static/videos/sign_language/please.mp4") ]
  }

  /** The exercises found on the page, or the default set when there are
      none: never empty. */
  function ExercisesOrDefault(found: seq<Exercise>): (r: seq<Exercise>)
    ensures |r| > 0
    ensures |found| > 0 ==> r == found
  {
    if |found| == 0 then DefaultExercises() else found
  }

  /** Exercises of a selected category at exactly the given level. */
  function Eligible(categories: seq<string>, level: string): Exercise -> bool {
    (e: Exercise) => e.category in categories && e.difficulty == level
  }

  function AtLevel(exercises: seq<Exercise>, categories: seq<string>, level: string): (r: seq<Exercise>)
    ensures forall k :: 0 <= k < |r| ==> r[k] in exercises && r[k].category in categories && r[k].difficulty == level
    ensures forall k :: 0 <= k < |exercises| ==>
      (exercises[k].category in categories && exercises[k].difficulty == level ==> exercises[k] in r)
  {
    Filter(exercises, Eligible(categories, level))
  }

  /** `levels.indexOf(x)`: the first position of `x`, or -1. */
  function IndexOf(levels: seq<string>, x: string): (r: int)
    ensures -1 <= r < |levels|
    ensures r == -1 <==> x !in levels
    ensures 0 <= r ==> levels[r] == x && x !in levels[..r]
  {
    if |levels| == 0 then -1
    else if levels[0] == x then 0
    else
      var rest := IndexOf(levels[1..], x);
      assert forall k :: 1 <= k < |levels| ==> levels[k] == levels[1..][k - 1];
      if rest == -1 then -1
      else
        assert levels[..rest + 1] == [levels[0]] + levels[1..][..rest];
        rest + 1
  }

  /** The exact-level pool keeps every eligible exercise as often as it
      occurs among the exercises, and no other. */
  lemma AtLevelMultiset(exercises: seq<Exercise>, categories: seq<string>, level: string)
    ensures forall e ::
      multiset(AtLevel(exercises, categories, level))[e] == (if e.category in categories && e.difficulty == level then multiset(exercises)[e] else 0)
  {
    FilterMultiset(exercises, Eligible(categories, level));
  }

  /** The fallback loop: append the exercises of each easier level `i`,
      `i + 1`, ... before `upTo`, stopping once there are enough. */
  function Widen(pool: seq<Exercise>, exercises: seq<Exercise>, categories: seq<string>, i: nat, upTo: int): (r: seq<Exercise>)
    requires upTo <= |DifficultyLevels|
    decreases upTo - i
    ensures pool <= r
  {
    if i >= upTo then pool
    else
      var widened := pool + AtLevel(exercises, categories, DifficultyLevels[i]);
      if |widened| >= NumberOfQuestions then widened
      else Widen(widened, exercises, categories, i + 1, upTo)
  }

  /** The exercises a quiz draws from: those of a selected category at the
      chosen level; when fewer than ten, followed by easier levels in order
      until there are ten; when still fewer than ten, all exercises. */
  function Selection(exercises: seq<Exercise>, categories: seq<string>, difficulty: string): (r: seq<Exercise>)
    ensures |AtLevel(exercises, categories, difficulty)| >= NumberOfQuestions ==> r == AtLevel(exercises, categories, difficulty)
    ensures |r| >= NumberOfQuestions || r == exercises
  {
    var exact := AtLevel(exercises, categories, difficulty);
    var widened :=
      if |exact| < NumberOfQuestions then Widen(exact, exercises, categories, 0, IndexOf(DifficultyLevels, difficulty))
      else exact;
    if |widened| < NumberOfQuestions then exercises else widened
  }

  /** A level listed before the chosen one, that is, an easier one. */
  ghost predicate Easier(level: string, difficulty: string) {
    var current := IndexOf(DifficultyLevels, difficulty);
    0 <= current && level in DifficultyLevels[..current]
  }

  /** The exercises at the chosen level followed by those of the `j` easiest
      levels, easiest first. */
  function Pool(exercises: seq<Exercise>, categories: seq<string>, difficulty: string, j: nat): (r: seq<Exercise>)
    requires j <= |DifficultyLevels|
    ensures AtLevel(exercises, categories, difficulty) <= r
  {
    if j == 0 then AtLevel(exercises, categories, difficulty)
    else Pool(exercises, categories, difficulty, j - 1) + AtLevel(exercises, categories, DifficultyLevels[j - 1])
  }

  /** Pools only grow as easier levels are added. */
  lemma {:induction false} PoolGrows(exercises: seq<Exercise>, categories: seq<string>, difficulty: string, j: nat, k: nat)
    requires j <= k <= |DifficultyLevels|
    decreases k - j
    ensures Pool(exercises, categories, difficulty, j) <= Pool(exercises, categories, difficulty, k)
  {
    if j < k {
      PoolGrows(exercises, categories, difficulty, j, k - 1);
    }
  }

  /** The pool of the `j` easiest levels has enough exercises for a quiz.
      Since pools only grow, the first such pool is the `j` with `Full(j)`
      and not `Full(j - 1)`. */
  ghost predicate Full(exercises: seq<Exercise>, categories: seq<string>, difficulty: string, j: nat)
    requires j <= |DifficultyLevels|
  {
    |Pool(exercises, categories, difficulty, j)| >= NumberOfQuestions
  }

  /** Widening from the pool of the `i` easiest levels stops at the first
      larger pool with at least ten exercises, or at the pool of all levels
      before `upTo` when none has. */
  lemma {:induction false} WidenIsPool(exercises: seq<Exercise>, categories: seq<string>, difficulty: string, i: nat, upTo: nat)
    requires i <= upTo <= |DifficultyLevels|
    requires !Full(exercises, categories, difficulty, i)
    decreases upTo - i
    ensures var r := Widen(Pool(exercises, categories, difficulty, i), exercises, categories, i, upTo);
      && (forall j :: i < j <= upTo && Full(exercises, categories, difficulty, j) && !Full(exercises, categories, difficulty, j - 1)
            ==> r == Pool(exercises, categories, difficulty, j))
      && (!Full(exercises, categories, difficulty, upTo) ==> r == Pool(exercises, categories, difficulty, upTo))
  {
    if i < upTo {
      var pool := Pool(exercises, categories, difficulty, i);
      var next := Pool(exercises, categories, difficulty, i + 1);
      assert next == pool + AtLevel(exercises, categories, DifficultyLevels[i]);
      var r := Widen(pool, exercises, categories, i, upTo);
      if !Full(exercises, categories, difficulty, i + 1) {
        assert r == Widen(next, exercises, categories, i + 1, upTo);
        WidenIsPool(exercises, categories, difficulty, i + 1, upTo);
      } else {
        assert r == next;
        PoolGrows(exercises, categories, difficulty, i + 1, upTo);
        forall m | i + 1 <= m < upTo
          ensures Full(exercises, categories, difficulty, m)
        {
          PoolGrows(exercises, categories, difficulty, i + 1, m);
        }
      }
    }
  }

  /** The selection, characterized without the loop: the first pool, in the
      order chosen level, then beginner, then intermediate, that holds at
      least ten exercises; all exercises when none does. */
  lemma SelectionIsFirstFullPool(exercises: seq<Exercise>, categories: seq<string>, difficulty: string)
    ensures var r := Selection(exercises, categories, difficulty);
      var last := Max(IndexOf(DifficultyLevels, difficulty), 0);
      && (forall j :: 0 <= j <= last && Full(exercises, categories, difficulty, j)
            && (j == 0 || !Full(exercises, categories, difficulty, j - 1))
            ==> r == Pool(exercises, categories, difficulty, j))
      && (!Full(exercises, categories, difficulty, last) ==> r == exercises)
  {
    var exact := AtLevel(exercises, categories, difficulty);
    var current := IndexOf(DifficultyLevels, difficulty);
    var r := Selection(exercises, categories, difficulty);
    assert Pool(exercises, categories, difficulty, 0) == exact;
    if Full(exercises, categories, difficulty, 0) {
      assert r == exact;
      PoolGrows(exercises, categories, difficulty, 0, Max(current, 0));
      forall m | 0 <= m < Max(current, 0)
        ensures Full(exercises, categories, difficulty, m)
      {
        PoolGrows(exercises, categories, difficulty, 0, m);
      }
    } else if current > 0 {
      WidenIsPool(exercises, categories, difficulty, 0, current);
    } else {
      assert r == exercises;
    }
  }

  /** After the exercises at the chosen level, the pool of the `j` easiest
      levels holds only exercises of a selected category at one of those
      levels. */
  lemma {:induction false} PoolLevels(exercises: seq<Exercise>, categories: seq<string>, difficulty: string, j: nat)
    requires j <= |DifficultyLevels|
    ensures forall k :: |AtLevel(exercises, categories, difficulty)| <= k < |Pool(exercises, categories, difficulty, j)| ==>
      && Pool(exercises, categories, difficulty, j)[k] in exercises
      && Pool(exercises, categories, difficulty, j)[k].category in categories
      && Pool(exercises, categories, difficulty, j)[k].difficulty in DifficultyLevels[..j]
  {
    if j > 0 {
      PoolLevels(exercises, categories, difficulty, j - 1);
      var before := Pool(exercises, categories, difficulty, j - 1);
      var added := AtLevel(exercises, categories, DifficultyLevels[j - 1]);
      var p := Pool(exercises, categories, difficulty, j);
      assert p == before + added;
      forall k | |AtLevel(exercises, categories, difficulty)| <= k < |p|
        ensures p[k] in exercises && p[k].category in categories && p[k].difficulty in DifficultyLevels[..j]
      {
        if k < |before| {
          assert p[k] == before[k];
          assert DifficultyLevels[..j - 1] <= DifficultyLevels[..j];
        } else {
          assert p[k] == added[k - |before|];
          assert DifficultyLevels[..j][j - 1] == DifficultyLevels[j - 1];
        }
      }
    }
  }

  /** Unless a quiz falls back to all exercises, it draws at least ten
      exercises from the selected categories: first every one at the chosen
      level, then only ones at easier levels. */
  lemma SelectionNoHarder(exercises: seq<Exercise>, categories: seq<string>, difficulty: string)
    ensures var r := Selection(exercises, categories, difficulty);
      var exact := AtLevel(exercises, categories, difficulty);
      || r == exercises
      || (&& |r| >= NumberOfQuestions
          && exact <= r
          && forall k :: |exact| <= k < |r| ==>
               r[k] in exercises && r[k].category in categories && Easier(r[k].difficulty, difficulty))
  {
    var r := Selection(exercises, categories, difficulty);
    var current := IndexOf(DifficultyLevels, difficulty);
    var last := Max(current, 0);
    SelectionIsFirstFullPool(exercises, categories, difficulty);
    if r != exercises {
      assert Full(exercises, categories, difficulty, last);
      var j := if Full(exercises, categories, difficulty, 0) then 0
        else if Full(exercises, categories, difficulty, 1) then 1 else 2;
      assert j <= last;
      assert r == Pool(exercises, categories, difficulty, j);
      PoolLevels(exercises, categories, difficulty, j);
      var exact := AtLevel(exercises, categories, difficulty);
      forall k | |exact| <= k < |r|
        ensures r[k] in exercises && r[k].category in categories && Easier(r[k].difficulty, difficulty)
      {
        assert r[k].difficulty in DifficultyLevels[..j];
        assert DifficultyLevels[..j] <= DifficultyLevels[..current];
      }
    }
  }

  /** The selection part of `generateQuestions`. */
  method SelectExercises(exercises: seq<Exercise>, categories: seq<string>, difficulty: string) returns (filtered: seq<Exercise>)
    ensures filtered == Selection(exercises, categories, difficulty)
  {
    filtered := AtLevel(exercises, categories, difficulty);
    if |filtered| < NumberOfQuestions {
      var current := IndexOf(DifficultyLevels, difficulty);
      ghost var target := Widen(filtered, exercises, categories, 0, current);
      var i := 0;
      while i < current
        invariant 0 <= i && (0 <= current ==> i <= current)
        invariant Widen(filtered, exercises, categories, i, current) == target
        decreases current - i
      {
        var easier := AtLevel(exercises, categories, DifficultyLevels[i]);
        filtered := filtered + easier;
        if |filtered| >= NumberOfQuestions {
          break;
        }
        i := i + 1;
      }
    }
    if |filtered| < NumberOfQuestions {
      filtered := exercises;
    }
  }

  /** `shuffleArray`: a Fisher-Yates pass that swaps each position with a
      randomly chosen one at or before it. */
  method ShuffleArray<T>(a: array<T>)
    modifies a
    ensures multiset(a[..]) == multiset(old(a[..]))
  {
    var i := a.Length - 1;
    while i > 0
      invariant -1 <= i < a.Length
      invariant multiset(a[..]) == multiset(old(a[..]))
    {
      var j :| 0 <= j <= i;
      a[i], a[j] := a[j], a[i];
      i := i - 1;
    }
  }

  /** A shuffled copy of `s`: the same elements, in some order. */
  method Shuffled<T>(s: seq<T>) returns (r: seq<T>)
    ensures |r| == |s|
    ensures multiset(r) == multiset(s)
  {
    if |s| == 0 {
      return s;
    }
    var a := new T[|s|](k requires 0 <= k < |s| => s[k]);
    assert a[..] == s;
    ShuffleArray(a);
    r := a[..];
  }

  lemma PrefixSubMultiset<T>(s: seq<T>, n: nat)
    requires n <= |s|
    ensures multiset(s[..n]) <= multiset(s)
  {
    assert s == s[..n] + s[n..];
  }

  /** The words of the exercises, in order. */
  function Words(es: seq<Exercise>): (r: seq<string>)
    ensures |r| == |es| && forall k :: 0 <= k < |es| ==> r[k] == es[k].word
  {
    seq(|es|, k requires 0 <= k < |es| => es[k].word)
  }

  /** The video paths of the exercises, in order. */
  function Videos(es: seq<Exercise>): (r: seq<string>)
    ensures |r| == |es| && forall k :: 0 <= k < |es| ==> r[k] == es[k].videoPath
  {
    seq(|es|, k requires 0 <= k < |es| => es[k].videoPath)
  }

  /** The exercises whose word differs from `e`'s: the distractor pool. */
  function Others(e: Exercise, exercises: seq<Exercise>): (r: seq<Exercise>)
    ensures forall k :: 0 <= k < |r| ==> r[k].word != e.word && r[k] in exercises
  {
    Filter(exercises, (x: Exercise) => x.word != e.word)
  }

  /** Up to three distractors drawn at random from `pool`
      (`sort(() => 0.5 - Math.random()).slice(0, 3)`). */
  method PickDistractors(pool: seq<string>) returns (picked: seq<string>)
    ensures |picked| == Min(3, |pool|)
    ensures multiset(picked) <= multiset(pool)
  {
    var shuffled := Shuffled(pool);
    picked := shuffled[..Min(3, |shuffled|)];
    PrefixSubMultiset(shuffled, Min(3, |shuffled|));
  }

  /** The options of a multiple-choice question: the correct answer and up to
      three distractors from `pool`, in some order. */
  ghost predicate OptionsFrom(options: seq<string>, correct: string, pool: seq<string>) {
    && |options| == 1 + Min(3, |pool|)
    && correct in options
    && multiset(options) - multiset{correct} <= multiset(pool)
  }

  /** `[correct, ...distractors]`, shuffled. */
  method MakeOptions(correct: string, pool: seq<string>) returns (options: seq<string>)
    ensures OptionsFrom(options, correct, pool)
  {
    var picked := PickDistractors(pool);
    options := Shuffled([correct] + picked);
    assert multiset(options) == multiset{correct} + multiset(picked);
    assert correct in multiset(options);
  }

  datatype Pair = Pair(word: string, video: string)

  datatype Question =
    | Recognition(video: string, options: seq<string>, correctAnswer: string, category: string)
    | Matching(pairs: seq<Pair>, category: string)
    | Translation(word: string, options: seq<string>, correctAnswer: string, category: string)

  /** A recognition question for `e`: its video, its word as the answer, and
      distractor words of exercises with a different word. */
  ghost predicate RecognitionFor(q: Question, e: Exercise, exercises: seq<Exercise>) {
    && q.Recognition?
    && q.video == e.videoPath && q.correctAnswer == e.word && q.category == e.category
    && OptionsFrom(q.options, e.word, Words(Others(e, exercises)))
  }

  /** A translation question for `e`: its word, its video as the answer, and
      distractor videos of exercises with a different word. */
  ghost predicate TranslationFor(q: Question, e: Exercise, exercises: seq<Exercise>) {
    && q.Translation?
    && q.word == e.word && q.correctAnswer == e.videoPath && q.category == e.category
    && OptionsFrom(q.options, e.videoPath, Videos(Others(e, exercises)))
  }

  /** The recognition question for one exercise. */
  method RecognitionQuestion(e: Exercise, exercises: seq<Exercise>) returns (q: Question)
    ensures RecognitionFor(q, e, exercises)
  {
    var options := MakeOptions(e.word, Words(Others(e, exercises)));
    q := Recognition(e.videoPath, options, e.word, e.category);
  }

  /** `generateRecognitionQuestions`: one question per exercise, in order. */
  method GenerateRecognitionQuestions(exercises: seq<Exercise>) returns (qs: seq<Question>)
    ensures |qs| == |exercises|
    ensures forall k :: 0 <= k < |qs| ==> RecognitionFor(qs[k], exercises[k], exercises)
  {
    qs := [];
    for k := 0 to |exercises|
      invariant |qs| == k
      invariant forall m :: 0 <= m < k ==> RecognitionFor(qs[m], exercises[m], exercises)
    {
      var q := RecognitionQuestion(exercises[k], exercises);
      qs := qs + [q];
    }
  }

  /** The translation question for one exercise. */
  method TranslationQuestion(e: Exercise, exercises: seq<Exercise>) returns (q: Question)
    ensures TranslationFor(q, e, exercises)
  {
    var options := MakeOptions(e.videoPath, Videos(Others(e, exercises)));
    q := Translation(e.word, options, e.videoPath, e.category);
  }

  /** `generateTranslationQuestions`: one question per exercise, in order. */
  method GenerateTranslationQuestions(exercises: seq<Exercise>) returns (qs: seq<Question>)
    ensures |qs| == |exercises|
    ensures forall k :: 0 <= k < |qs| ==> TranslationFor(qs[k], exercises[k], exercises)
  {
    qs := [];
    for k := 0 to |exercises|
      invariant |qs| == k
      invariant forall m :: 0 <= m < k ==> TranslationFor(qs[m], exercises[m], exercises)
    {
      var q := TranslationQuestion(exercises[k], exercises);
      qs := qs + [q];
    }
  }

  /** In a recognition question the correct word is offered exactly once and
      every other option is the word of another exercise with a different
      word. */
  lemma RecognitionAnswerOnce(q: Question, e: Exercise, exercises: seq<Exercise>)
    requires RecognitionFor(q, e, exercises)
    ensures multiset(q.options)[e.word] == 1
    ensures forall k :: 0 <= k < |q.options| && q.options[k] != e.word ==>
      exists x :: x in exercises && x.word == q.options[k] && x.word != e.word
  {
    var pool := Words(Others(e, exercises));
    assert e.word !in multiset(pool);
    assert (multiset(q.options) - multiset{e.word})[e.word] == 0;
    forall k | 0 <= k < |q.options| && q.options[k] != e.word
      ensures exists x :: x in exercises && x.word == q.options[k] && x.word != e.word
    {
      var o := q.options[k];
      assert o in multiset(q.options) - multiset{e.word};
      assert o in multiset(pool);
      var i :| 0 <= i < |pool| && pool[i] == o;
      assert Others(e, exercises)[i] in exercises;
    }
  }

  /** The category label of a matching question:
      `batch.map(e => e.category).join(', ')`. */
  function JoinCategories(batch: seq<Exercise>): (r: string)
    ensures |batch| > 0 ==> batch[0].category <= r
    ensures |batch| > 0 ==> |batch[|batch| - 1].category| <= |r| && r[|r| - |batch[|batch| - 1].category|..] == batch[|batch| - 1].category
  {
    if |batch| == 0 then ""
    else if |batch| == 1 then batch[0].category
    else
      assert batch[..|batch| - 1][0] == batch[0];
      JoinCategories(batch[..|batch| - 1]) + ", " + batch[|batch| - 1].category
  }

  /** The word-video pairs of a batch, in order. */
  function PairsOf(batch: seq<Exercise>): (r: seq<Pair>)
    ensures |r| == |batch|
    ensures forall k :: 0 <= k < |batch| ==> r[k] == Pair(batch[k].word, batch[k].videoPath)
  {
    seq(|batch|, k requires 0 <= k < |batch| => Pair(batch[k].word, batch[k].videoPath))
  }

  function MatchingFor(batch: seq<Exercise>): Question {
    Matching(PairsOf(batch), JoinCategories(batch))
  }

  /** `generateMatchingQuestions`: consecutive batches of four exercises, a
      trailing partial batch dropped. */
  method GenerateMatchingQuestions(exercises: seq<Exercise>) returns (qs: seq<Question>)
    ensures |qs| == |exercises| / 4
    ensures forall k :: 0 <= k < |qs| ==> 4 * k + 4 <= |exercises| && qs[k] == MatchingFor(exercises[4 * k..4 * k + 4])
    ensures forall k :: 0 <= k < |qs| ==> qs[k].Matching? && |qs[k].pairs| == 4
  {
    qs := [];
    var i := 0;
    while i < |exercises|
      invariant 0 <= i && i % 4 == 0
      invariant i <= |exercises| || (i - 4 < |exercises| && |exercises| % 4 != 0)
      invariant |qs| == Min(i, |exercises|) / 4
      invariant forall k :: 0 <= k < |qs| ==> 4 * k + 4 <= |exercises| && qs[k] == MatchingFor(exercises[4 * k..4 * k + 4])
      decreases |exercises| - i
    {
      var batch := exercises[i..Min(i + 4, |exercises|)];
      if |batch| >= 4 {
        qs := qs + [MatchingFor(batch)];
      }
      i := i + 4;
    }
  }

  /** Whether the learner matched this pair's video to its word. */
  predicate PairMatched(userMatches: map<string, string>, p: Pair) {
    p.video in userMatches && userMatches[p.video] == p.word
  }

  /** The same, as a test on a pair. */
  function MatchedBy(userMatches: map<string, string>): Pair -> bool {
    (p: Pair) => PairMatched(userMatches, p)
  }

  /** The number of pairs matched correctly: the number of pairs that pass
      the test. */
  function CountMatched(pairs: seq<Pair>, userMatches: map<string, string>): (n: nat)
    ensures n == |Filter(pairs, MatchedBy(userMatches))|
    ensures n <= |pairs|
    ensures n == |pairs| <==> forall k :: 0 <= k < |pairs| ==> PairMatched(userMatches, pairs[k])
  {
    if pairs == [] then 0
    else
      var rest := CountMatched(pairs[1..], userMatches);
      assert forall k :: 1 <= k < |pairs| ==> pairs[k] == pairs[1..][k - 1];
      (if PairMatched(userMatches, pairs[0]) then 1 else 0) + rest
  }

  /** No pair after the `k`th has the same video. */
  ghost predicate LastForVideo(pairs: seq<Pair>, k: nat)
    requires k < |pairs|
  {
    forall j :: k < j < |pairs| ==> pairs[j].video != pairs[k].video
  }

  /** The videos of the pairs. */
  ghost function PairVideos(pairs: seq<Pair>): set<string> {
    set k | 0 <= k < |pairs| :: pairs[k].video
  }

  /** Setting the last pair's video to its word extends a map that is right
      for the earlier pairs to one that is right for all of them. */
  lemma LastPairWins(front: seq<Pair>, last: Pair, m: map<string, string>)
    requires m.Keys == PairVideos(front)
    requires forall k :: 0 <= k < |front| && LastForVideo(front, k) ==> m[front[k].video] == front[k].word
    ensures var pairs := front + [last];
      var updated := m[last.video := last.word];
      && updated.Keys == PairVideos(pairs)
      && forall k :: 0 <= k < |pairs| && LastForVideo(pairs, k) ==> updated[pairs[k].video] == pairs[k].word
  {
    var pairs := front + [last];
    var updated := m[last.video := last.word];
    assert PairVideos(pairs) == PairVideos(front) + {last.video} by {
      forall v | v in PairVideos(pairs) ensures v in PairVideos(front) + {last.video} {
        var k :| 0 <= k < |pairs| && pairs[k].video == v;
        if k < |front| {
          assert front[k].video == v;
        }
      }
      forall v | v in PairVideos(front) ensures v in PairVideos(pairs) {
        var k :| 0 <= k < |front| && front[k].video == v;
        assert pairs[k].video == v;
      }
      assert pairs[|front|].video == last.video;
    }
    forall k | 0 <= k < |pairs| && LastForVideo(pairs, k)
      ensures updated[pairs[k].video] == pairs[k].word
    {
      if k < |front| {
        assert pairs[|front|].video != pairs[k].video;
        assert LastForVideo(front, k) by {
          forall j | k < j < |front| ensures front[j].video != front[k].video {
            assert pairs[j] == front[j];
          }
        }
        assert pairs[k] == front[k];
      }
    }
  }

  /** The expected answer of a matching question, video to word: its keys
      are the videos of the pairs, and each video maps to the word of the
      last pair with that video. */
  function ExpectedMatches(pairs: seq<Pair>): (m: map<string, string>)
    ensures m.Keys == PairVideos(pairs)
    ensures forall k :: 0 <= k < |pairs| && LastForVideo(pairs, k) ==> m[pairs[k].video] == pairs[k].word
  {
    if pairs == [] then map[]
    else
      var front := pairs[..|pairs| - 1];
      var last := pairs[|pairs| - 1];
      assert pairs == front + [last];
      LastPairWins(front, last, ExpectedMatches(front));
      ExpectedMatches(front)[last.video := last.word]
  }

  datatype Answer =
    | Choice(questionIndex: nat, userAnswer: string, correctAnswer: string, isCorrect: bool)
    | Matches(questionIndex: nat, userMatches: map<string, string>, expected: map<string, string>,
              isCorrect: bool, correctMatches: nat, totalMatches: nat)

  /** The answer `saveAnswer` records for question `index`: `selected` is the
      checked option, if any, and `userMatches` the video-to-word matches the
      learner made. */
  function Grade(q: Question, index: nat, selected: Option<string>, userMatches: map<string, string>): (a: Answer)
    ensures a.questionIndex == index
    ensures q.Matching? ==>
      && a.Matches? && a.userMatches == userMatches
      && a.totalMatches == |q.pairs| && a.correctMatches <= a.totalMatches
      && a.correctMatches == CountMatched(q.pairs, userMatches)
      && a.expected == ExpectedMatches(q.pairs)
      && (a.isCorrect <==> a.correctMatches == a.totalMatches)
      && (a.isCorrect <==> forall k :: 0 <= k < |q.pairs| ==> PairMatched(userMatches, q.pairs[k]))
    ensures !q.Matching? ==>
      && a.Choice? && a.correctAnswer == q.correctAnswer
      && (selected.None? ==> a.userAnswer == "")
      && (selected.Some? ==> a.userAnswer == selected.value)
      && (a.isCorrect <==> a.userAnswer == q.correctAnswer)
  {
    match q
    case Matching(pairs, _) =>
      var correct := CountMatched(pairs, userMatches);
      Matches(index, userMatches, ExpectedMatches(pairs), correct == |pairs|, correct, |pairs|)
    case _ =>
      var userAnswer := selected.GetOr("");
      Choice(index, userAnswer, q.correctAnswer, userAnswer == q.correctAnswer)
  }

  /** An unanswered multiple-choice question counts as wrong unless the
      correct answer is the empty string. */
  lemma UnansweredIsWrong(q: Question, index: nat, userMatches: map<string, string>)
    requires !q.Matching? && q.correctAnswer != ""
    ensures !Grade(q, index, None, userMatches).isCorrect
  {
  }

  /** The number of correct answers. */
  function CorrectCount(answers: seq<Answer>): (n: nat)
    ensures n <= |answers|
  {
    Count(answers, (a: Answer) => a.isCorrect)
  }

  /** The score shown at the end: the percentage of correct answers, rounded
      half up. Only defined for a quiz with questions. */
  function ScorePercentage(correct: nat, total: nat): (r: int)
    requires total > 0
    ensures 0 <= r
    ensures correct <= total ==> r <= 100
    ensures (2 * total) * r <= 200 * correct + total < (2 * total) * r + 2 * total
  {
    Percent(correct, total)
  }

  /** All answers right scores 100, none right scores 0. */
  lemma ScoreExtremes(total: nat)
    requires total > 0
    ensures ScorePercentage(total, total) == 100
    ensures ScorePercentage(0, total) == 0
  {
    var full := ScorePercentage(total, total);
    MulLess(2 * total, 99, full);
    var none := ScorePercentage(0, total);
    MulLess(2 * total, none, 1);
  }

  datatype HistoryEntry = HistoryEntry(quizType: string, difficulty: string, score: nat, totalQuestions: nat, timeSpent: int, date: int)

  /** The history after appending `entry`, the oldest entry dropped when it
      then holds more than fifty. */
  function AppendCapped(history: seq<HistoryEntry>, entry: HistoryEntry): (r: seq<HistoryEntry>)
    ensures |r| > 0 && r[|r| - 1] == entry
    ensures |r| == if |history| + 1 > HistoryLimit then |history| else |history| + 1
    ensures r == (history + [entry])[|history| + 1 - |r|..]
    ensures |history| <= HistoryLimit ==> |r| <= HistoryLimit
  {
    var appended := history + [entry];
    if |appended| > HistoryLimit then appended[1..] else appended
  }

  /** Saving several quizzes in turn. */
  function SaveAll(history: seq<HistoryEntry>, entries: seq<HistoryEntry>): seq<HistoryEntry>
    decreases |entries|
  {
    if entries == [] then history else SaveAll(AppendCapped(history, entries[0]), entries[1..])
  }

  /** A history of at most fifty entries stays within fifty however many
      quizzes are saved, and it ends with the latest one. */
  lemma {:induction false} SavesStayCapped(history: seq<HistoryEntry>, entries: seq<HistoryEntry>)
    requires |history| <= HistoryLimit
    decreases |entries|
    ensures |SaveAll(history, entries)| <= HistoryLimit
    ensures |entries| > 0 ==>
      |SaveAll(history, entries)| > 0 && SaveAll(history, entries)[|SaveAll(history, entries)| - 1] == entries[|entries| - 1]
  {
    if entries != [] {
      var next := AppendCapped(history, entries[0]);
      SavesStayCapped(next, entries[1..]);
      assert SaveAll(history, entries) == SaveAll(next, entries[1..]);
      if |entries| == 1 {
        assert SaveAll(next, entries[1..]) == next;
      } else {
        assert entries[1..][|entries[1..]| - 1] == entries[|entries| - 1];
      }
    }
  }

  /** The stored quiz history. */
  class QuizHistory {
    var entries: seq<HistoryEntry>

    constructor (stored: seq<HistoryEntry>)
      ensures entries == stored
    {
      entries := stored;
    }

    /** `saveQuizHistory`. */
    method SaveQuizHistory(entry: HistoryEntry)
      modifies this
      ensures entries == AppendCapped(old(entries), entry)
    {
      entries := entries + [entry];
      if |entries| > HistoryLimit {
        entries := entries[1..];
      }
    }
  }

  /** The state of the quiz being taken. */
  class QuizState {
    var quizType: string
    var difficulty: string
    var questions: seq<Question>
    var currentQuestionIndex: nat
    var answers: seq<Answer>

    constructor (quizType: string, difficulty: string, questions: seq<Question>)
      ensures this.quizType == quizType && this.difficulty == difficulty && this.questions == questions
      ensures currentQuestionIndex == 0 && answers == []
    {
      this.quizType := quizType;
      this.difficulty := difficulty;
      this.questions := questions;
      currentQuestionIndex := 0;
      answers := [];
    }

    /** `saveAnswer`, with the checked option and the learner's matches
        passed in. */
    method SaveAnswer(selected: Option<string>, userMatches: map<string, string>)
      requires currentQuestionIndex < |questions|
      modifies this
      ensures questions == old(questions) && currentQuestionIndex == old(currentQuestionIndex)
      ensures answers == old(answers) + [Grade(questions[currentQuestionIndex], currentQuestionIndex, selected, userMatches)]
      ensures quizType == old(quizType) && difficulty == old(difficulty)
    {
      var answer := Grade(questions[currentQuestionIndex], currentQuestionIndex, selected, userMatches);
      answers := answers + [answer];
    }

    /** `showResults`: the score, recorded in the history with the time spent
        and the date passed in. A quiz without questions divides 0 by 0, so
        its percentage is not a number, shown here as `None`. */
    method ShowResults(history: QuizHistory, timeSpent: int, date: int) returns (correct: nat, total: nat, percentage: Option<int>)
      modifies history
      ensures correct == CorrectCount(answers) && total == |questions|
      ensures total == 0 ==> percentage == None
      ensures total > 0 ==> percentage == Some(ScorePercentage(correct, total))
      ensures history.entries ==
        AppendCapped(old(history.entries), HistoryEntry(quizType, difficulty, correct, total, timeSpent, date))
    {
      correct := CorrectCount(answers);
      total := |questions|;
      percentage := if total > 0 then Some(ScorePercentage(correct, total)) else None;
      history.SaveQuizHistory(HistoryEntry(quizType, difficulty, correct, total, timeSpent, date));
    }
  }

  /** The question-building part of `generateQuestions`: select, shuffle,
      keep at most ten, and build questions of the quiz's type; an unknown
      type gives no questions. */
  method GenerateQuestions(found: seq<Exercise>, categories: seq<string>, difficulty: string, quizType: string)
    returns (questions: seq<Question>, chosen: seq<Exercise>)
    ensures var pool := Selection(ExercisesOrDefault(found), categories, difficulty);
      |chosen| == Min(NumberOfQuestions, |pool|) && multiset(chosen) <= multiset(pool)
    ensures quizType == "recognition" ==>
      |questions| == |chosen| && forall k :: 0 <= k < |questions| ==> RecognitionFor(questions[k], chosen[k], chosen)
    ensures quizType == "matching" ==>
      && |questions| == |chosen| / 4
      && forall k :: 0 <= k < |questions| ==> 4 * k + 4 <= |chosen| && questions[k] == MatchingFor(chosen[4 * k..4 * k + 4])
    ensures quizType == "translation" ==>
      |questions| == |chosen| && forall k :: 0 <= k < |questions| ==> TranslationFor(questions[k], chosen[k], chosen)
    ensures quizType != "recognition" && quizType != "matching" && quizType != "translation" ==> questions == []
  {
    var exercises := ExercisesOrDefault(found);
    var filtered := SelectExercises(exercises, categories, difficulty);
    var shuffled := Shuffled(filtered);
    chosen := shuffled[..Min(NumberOfQuestions, |shuffled|)];
    PrefixSubMultiset(shuffled, Min(NumberOfQuestions, |shuffled|));
    if quizType == "recognition" {
      questions := GenerateRecognitionQuestions(chosen);
    } else if quizType == "matching" {
      questions := GenerateMatchingQuestions(chosen);
    } else if quizType == "translation" {
      questions := GenerateTranslationQuestions(chosen);
    } else {
      questions := [];
    }
  }
}
