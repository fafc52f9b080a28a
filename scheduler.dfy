/** The review scheduler of the spaced-repetition system: the SM-2 variant
    that `processReview` applies to one card. Times are integer millisecond
    timestamps; the ease factor is an exact rational. */
module Scheduler {
  import opened Common

  /** One day in milliseconds: `setDate(getDate() + n)` moves a date n days on. */
  const DayMs: int := 86400000

  /** The ease factor never drops below this. */
  const MinEase: real := 1.3

  /** The ease factor of a card that has never been reviewed. */
  const InitialEase: real := 2.5

  /** A review of this quality or better counts as a correct response. */
  const PassQuality: int := 3

  /** A flashcard's scheduling state. `interval` is in days, `dueDate` and
      `lastReviewed` are timestamps. */
  datatype Card = Card(
    category: string,
    word: string,
    easeFactor: real,
    interval: int,
    repetitions: int,
    dueDate: int,
    lastReviewed: Option<int>)

  /** The default card `addCard` stores: due immediately, never reviewed. */
  function NewCard(category: string, word: string, now: int): (c: Card)
    ensures c.category == category && c.word == word
    ensures c.easeFactor == InitialEase && c.interval == 0 && c.repetitions == 0
    ensures c.dueDate == now && c.lastReviewed == None
  {
    Card(category, word, InitialEase, 0, 0, now, None)
  }

  /** The change the review formula makes to the ease factor before the floor
      is applied: 0.1 - (5 - q) * (0.08 + (5 - q) * 0.02). */
  function EaseDelta(quality: int): (r: real)
    ensures quality == 5 ==> r == 0.1
    ensures quality <= 5 ==> r <= 0.1
  {
    var miss := (5 - quality) as real;
    0.1 - miss * (0.08 + miss * 0.02)
  }

  /** The ease factor after a review of the given quality. */
  function NextEase(ease: real, quality: int): (e: real)
    ensures e >= MinEase
    ensures e >= ease + EaseDelta(quality)
    ensures e == MinEase || e == ease + EaseDelta(quality)
  {
    if ease + EaseDelta(quality) > MinEase then ease + EaseDelta(quality) else MinEase
  }

  /** The interval, in days, after a correct response. The third and later
      correct responses multiply the interval by the ease factor the card had
      before this review, rounded to the nearest day. */
  function SuccessInterval(card: Card): (days: int)
    ensures card.repetitions == 0 ==> days == 1
    ensures card.repetitions == 1 ==> days == 6
    ensures card.repetitions != 0 && card.repetitions != 1 ==>
      days as real - 0.5 <= card.interval as real * card.easeFactor < days as real + 0.5
  {
    if card.repetitions == 0 then 1
    else if card.repetitions == 1 then 6
    else RoundHalfUp(card.interval as real * card.easeFactor)
  }

  /** `processReview` on a card that exists: the card after a review of the
      given quality at time `now`. */
  function Review(card: Card, quality: int, now: int): (r: Card)
    ensures r.category == card.category && r.word == card.word
    ensures r.lastReviewed == Some(now)
    ensures r.dueDate == now + r.interval * DayMs
    ensures r.easeFactor == NextEase(card.easeFactor, quality)
    ensures quality < PassQuality ==> r.repetitions == 0 && r.interval == 0
    ensures quality >= PassQuality ==>
      r.repetitions == card.repetitions + 1 && r.interval == SuccessInterval(card)
  {
    var reviewed := card.(lastReviewed := Some(now));
    var scheduled :=
      if quality >= PassQuality then
        reviewed.(interval := SuccessInterval(card), repetitions := card.repetitions + 1)
      else
        reviewed.(repetitions := 0, interval := 0);
    var eased := scheduled.(easeFactor := NextEase(card.easeFactor, quality));
    eased.(dueDate := now + eased.interval * DayMs)
  }

  /** The scheduling states that reviews can lead to from a new card: the
      ease factor is at its floor or above, a card with no correct responses
      is due again at once, the first and second correct responses give 1 and
      6 days, and later ones at least 6. */
  ghost predicate Scheduled(c: Card) {
    && c.easeFactor >= MinEase
    && c.repetitions >= 0
    && (c.repetitions == 0 ==> c.interval == 0)
    && (c.repetitions == 1 ==> c.interval == 1)
    && (c.repetitions >= 2 ==> c.interval >= 6)
  }

  lemma NewCardScheduled(category: string, word: string, now: int)
    ensures Scheduled(NewCard(category, word, now))
  {
  }

  /** With the ease factor at 1.3 or more, multiplying an interval of at
      least 6 days and rounding adds at least two days. */
  lemma GrowthAtLeastTwoDays(interval: int, ease: real)
    requires interval >= 6 && ease >= MinEase
    ensures RoundHalfUp(interval as real * ease) >= interval + 2
  {
    var i := interval as real;
    assert i * ease - i * MinEase == i * (ease - MinEase);
    assert i * (ease - MinEase) >= 0.0;
    assert i * ease >= i * MinEase;
  }

  /** Reviews keep a card among the reachable scheduling states. */
  lemma ReviewKeepsScheduled(c: Card, quality: int, now: int)
    requires Scheduled(c)
    ensures Scheduled(Review(c, quality, now))
  {
    if quality >= PassQuality && c.repetitions >= 2 {
      GrowthAtLeastTwoDays(c.interval, c.easeFactor);
    }
  }

  /** Every correct response on a reachable card makes its interval strictly
      longer; every failed one makes the card due again at once. */
  lemma SuccessLengthensInterval(c: Card, quality: int, now: int)
    requires Scheduled(c) && quality >= PassQuality
    ensures Review(c, quality, now).interval > c.interval
  {
    if c.repetitions >= 2 {
      GrowthAtLeastTwoDays(c.interval, c.easeFactor);
    }
  }

  /** The ease adjustment grows with the quality on the rating scale 0..5:
      a better answer never makes the ease smaller than a worse one does. */
  lemma EaseDeltaMonotone(q1: int, q2: int)
    requires 0 <= q1 <= q2 <= 5
    ensures EaseDelta(q1) <= EaseDelta(q2)
  {
    EaseDeltaTable();
  }

  /** So the new ease factor is non-decreasing in the quality. */
  lemma NextEaseMonotone(ease: real, q1: int, q2: int)
    requires 0 <= q1 <= q2 <= 5
    ensures NextEase(ease, q1) <= NextEase(ease, q2)
  {
    EaseDeltaMonotone(q1, q2);
  }

  /** The adjustment at each point of the rating scale: quality 4 leaves the
      ease unchanged, quality 5 raises it by 0.1, and quality 0 lowers it by
      0.8. */
  lemma EaseDeltaTable()
    ensures EaseDelta(5) == 0.1 && EaseDelta(4) == 0.0 && EaseDelta(3) == -0.14
    ensures EaseDelta(2) == -0.32 && EaseDelta(1) == -0.54 && EaseDelta(0) == -0.8
  {
  }

  /** A review of quality 4 leaves an ease factor at or above the floor
      unchanged, whatever happens to the interval. */
  lemma QualityFourKeepsEase(c: Card, now: int)
    requires c.easeFactor >= MinEase
    ensures Review(c, 4, now).easeFactor == c.easeFactor
  {
    EaseDeltaTable();
  }

  /** The worked examples of the schedule: a new card answered with quality 4
      is due in one day, the second correct response gives six days, and a
      third at ease 2.5 gives round(6 * 2.5) = 15 days. */
  lemma ScheduleExamples(category: string, word: string, now: int)
    ensures var c1 := Review(NewCard(category, word, now), 4, now);
      c1.interval == 1 && c1.repetitions == 1 && c1.easeFactor == 2.5
    ensures var c2 := Review(Card(category, word, 2.5, 1, 1, now, None), 4, now);
      c2.interval == 6 && c2.repetitions == 2
    ensures var c3 := Review(Card(category, word, 2.5, 6, 2, now, None), 5, now);
      c3.interval == 15 && c3.repetitions == 3 && c3.dueDate == now + 15 * DayMs
  {
    EaseDeltaTable();
    assert RoundHalfUp(6.0 * 2.5) == 15;
  }
}
