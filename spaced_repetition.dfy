/** The spaced-repetition system: a table of cards keyed by
    "<category>-<word>", the due-card query, and the study session that
    draws a bounded deck of due cards, records which of them have been
    answered and reports statistics when it ends. */
module SpacedRepetition {
  import opened Common
  import opened Scheduler

  /** `getDueCards()` without an argument returns at most this many cards. */
  const DefaultDueLimit: nat := 20

  /** The defaults of `startSession(newCardLimit, totalCardLimit)`. */
  const DefaultNewCardLimit: int := 5
  const DefaultTotalCardLimit: int := 20

  /** `getStats` counts a card as mastered from this interval (days) on. */
  const MasteredInterval: int := 30

  /** The key of a card: category and word joined by a hyphen. */
  function CardId(category: string, word: string): (r: string)
    ensures |r| == |category| + 1 + |word|
    ensures r[..|category|] == category && r[|category|] == '-' && r[|category| + 1..] == word
  {
    category + "-" + word
  }

  /** The key is plain concatenation, so two different (category, word)
      pairs can share one card. */
  lemma CardIdCollides()
    ensures ("a-b", "c") != ("a", "b-c")
    ensures CardId("a-b", "c") == CardId("a", "b-c")
  {
  }

  /** The card table in its enumeration order: `order` lists every key of
      `cards` once, in insertion order (a key always contains '-', so it is
      never an array index and JavaScript enumerates it in insertion order). */
  ghost predicate TableOrder(cards: map<string, Card>, order: seq<string>) {
    Distinct(order) && forall id :: id in cards <==> id in order
  }

  lemma {:induction false} DistinctSetSize(s: seq<string>)
    requires Distinct(s)
    ensures |set id | id in s| == |s|
  {
    if s != [] {
      var last := s[|s| - 1];
      var init := s[..|s| - 1];
      assert Distinct(init);
      DistinctSetSize(init);
      assert (set id | id in s) == (set id | id in init) + {last};
      assert last !in init;
    }
  }

  /** The table has exactly as many cards as its order lists keys. */
  lemma TableSize(cards: map<string, Card>, order: seq<string>)
    requires TableOrder(cards, order)
    ensures |cards| == |order|
  {
    DistinctSetSize(order);
    assert cards.Keys == set id | id in order;
  }

  /** A card together with its key, as `getDueCards` and the session see it. */
  datatype DueCard = DueCard(id: string, card: Card)

  /** `Object.entries(cards)` with each card tagged with its key. */
  function Listing(cards: map<string, Card>, order: seq<string>): (r: seq<DueCard>)
    requires forall i :: 0 <= i < |order| ==> order[i] in cards
    ensures |r| == |order|
    ensures forall i :: 0 <= i < |order| ==> r[i] == DueCard(order[i], cards[order[i]])
  {
    seq(|order|, i requires 0 <= i < |order| => DueCard(order[i], cards[order[i]]))
  }

  /** Whether a card is due at time `now`. */
  function DueAt(now: int): DueCard -> bool {
    (d: DueCard) => d.card.dueDate <= now
  }

  /** The due cards in enumeration order, before sorting. */
  function DueListing(cards: map<string, Card>, order: seq<string>, now: int): (r: seq<DueCard>)
    requires forall i :: 0 <= i < |order| ==> order[i] in cards
    ensures |r| <= |order|
    ensures forall k :: 0 <= k < |r| ==> r[k].card.dueDate <= now
  {
    Filter(Listing(cards, order), DueAt(now))
  }

  ghost predicate SortedByDue(s: seq<DueCard>) {
    forall i, j :: 0 <= i < j < |s| ==> s[i].card.dueDate <= s[j].card.dueDate
  }

  /** Inserts `x` in front of every card due no earlier than it, which keeps
      the sort stable. */
  function InsertByDue(x: DueCard, s: seq<DueCard>): (r: seq<DueCard>)
    ensures |r| == |s| + 1
  {
    if s == [] || x.card.dueDate <= s[0].card.dueDate then [x] + s
    else [s[0]] + InsertByDue(x, s[1..])
  }

  /** The earlier of `x`'s due date and the first due date of `s`. */
  function FirstDue(x: DueCard, s: seq<DueCard>): int {
    if s == [] || x.card.dueDate <= s[0].card.dueDate then x.card.dueDate else s[0].card.dueDate
  }

  lemma {:induction false} InsertPermutes(x: DueCard, s: seq<DueCard>)
    ensures multiset(InsertByDue(x, s)) == multiset(s) + multiset{x}
  {
    if s != [] && x.card.dueDate > s[0].card.dueDate {
      InsertPermutes(x, s[1..]);
      assert s == [s[0]] + s[1..];
    }
  }

  lemma {:induction false} InsertSorted(x: DueCard, s: seq<DueCard>)
    requires SortedByDue(s)
    ensures SortedByDue(InsertByDue(x, s))
    ensures forall k :: 0 <= k < |s| + 1 ==> InsertByDue(x, s)[k].card.dueDate >= FirstDue(x, s)
  {
    if s != [] && x.card.dueDate > s[0].card.dueDate {
      InsertSorted(x, s[1..]);
    }
  }

  /** `dueCards.sort((a, b) => a.dueDate - b.dueDate)`, a stable insertion
      sort. */
  function SortByDue(s: seq<DueCard>): (r: seq<DueCard>)
    ensures |r| == |s|
  {
    if s == [] then [] else InsertByDue(s[0], SortByDue(s[1..]))
  }

  /** The sort returns the same cards, in non-decreasing due-date order. */
  lemma {:induction false} SortByDueCorrect(s: seq<DueCard>)
    ensures multiset(SortByDue(s)) == multiset(s)
    ensures SortedByDue(SortByDue(s))
  {
    if s != [] {
      SortByDueCorrect(s[1..]);
      InsertPermutes(s[0], SortByDue(s[1..]));
      InsertSorted(s[0], SortByDue(s[1..]));
      assert s == [s[0]] + s[1..];
    }
  }

  /** `getDueCards(limit)`: the cards due at `now`, most overdue first, at
      most `limit` of them. */
  function GetDueCards(cards: map<string, Card>, order: seq<string>, now: int, limit: nat): (r: seq<DueCard>)
    requires forall i :: 0 <= i < |order| ==> order[i] in cards
    ensures |r| <= limit
  {
    var sorted := SortByDue(DueListing(cards, order, now));
    sorted[..Min(limit, |sorted|)]
  }

  /** `getDueCards` returns only due cards, as stored, sorted by due date and
      at most `limit` of them. A due card is left out only when the limit is
      reached, and then no kept card is due later than it. */
  lemma GetDueCardsCorrect(cards: map<string, Card>, order: seq<string>, now: int, limit: nat)
    requires forall i :: 0 <= i < |order| ==> order[i] in cards
    ensures var r := GetDueCards(cards, order, now, limit);
      && |r| == Min(limit, |DueListing(cards, order, now)|)
      && (forall k :: 0 <= k < |r| ==>
            r[k].id in cards && r[k].card == cards[r[k].id] && r[k].card.dueDate <= now)
      && SortedByDue(r)
      && multiset(r) <= multiset(DueListing(cards, order, now))
      && (|r| < limit ==> forall i :: 0 <= i < |order| && cards[order[i]].dueDate <= now ==>
            DueCard(order[i], cards[order[i]]) in r)
      && (forall i, k ::
            (0 <= i < |order| && cards[order[i]].dueDate <= now &&
             DueCard(order[i], cards[order[i]]) !in r && 0 <= k < |r|) ==>
            r[k].card.dueDate <= cards[order[i]].dueDate)
  {
    DueCardsStored(cards, order, now, limit);
    DueCardsComplete(cards, order, now, limit);
    DueCardsEarliest(cards, order, now, limit);
    DueCardsFromListing(cards, order, now, limit);
  }

  /** Every card `getDueCards` returns is due and stored under its id, and
      the result is sorted by due date. */
  lemma DueCardsStored(cards: map<string, Card>, order: seq<string>, now: int, limit: nat)
    requires forall i :: 0 <= i < |order| ==> order[i] in cards
    ensures var r := GetDueCards(cards, order, now, limit);
      && (forall k :: 0 <= k < |r| ==>
            r[k].id in cards && r[k].card == cards[r[k].id] && r[k].card.dueDate <= now)
      && SortedByDue(r)
  {
    var sorted := SortByDue(DueListing(cards, order, now));
    DueCardsFacts(cards, order, now);
    PrefixOfSorted(sorted, Min(limit, |sorted|));
  }

  /** Below the limit, `getDueCards` returns every due card of the table. */
  lemma DueCardsComplete(cards: map<string, Card>, order: seq<string>, now: int, limit: nat)
    requires forall i :: 0 <= i < |order| ==> order[i] in cards
    ensures var r := GetDueCards(cards, order, now, limit);
      |r| < limit ==> forall i :: 0 <= i < |order| && cards[order[i]].dueDate <= now ==>
        DueCard(order[i], cards[order[i]]) in r
  {
    var sorted := SortByDue(DueListing(cards, order, now));
    DueCardsFacts(cards, order, now);
    assert |sorted| < limit ==> GetDueCards(cards, order, now, limit) == sorted;
  }

  /** A due card left out by `getDueCards` is due no earlier than any card
      it returns. */
  lemma DueCardsEarliest(cards: map<string, Card>, order: seq<string>, now: int, limit: nat)
    requires forall i :: 0 <= i < |order| ==> order[i] in cards
    ensures var r := GetDueCards(cards, order, now, limit);
      forall i, k ::
        (0 <= i < |order| && cards[order[i]].dueDate <= now &&
         DueCard(order[i], cards[order[i]]) !in r && 0 <= k < |r|) ==>
        r[k].card.dueDate <= cards[order[i]].dueDate
  {
    var sorted := SortByDue(DueListing(cards, order, now));
    DueCardsFacts(cards, order, now);
    PrefixOfSorted(sorted, Min(limit, |sorted|));
  }

  /** `getDueCards` repeats no card: each kept card is taken from the due
      listing, at most as often as it occurs there. */
  lemma DueCardsFromListing(cards: map<string, Card>, order: seq<string>, now: int, limit: nat)
    requires forall i :: 0 <= i < |order| ==> order[i] in cards
    ensures multiset(GetDueCards(cards, order, now, limit)) <= multiset(DueListing(cards, order, now))
  {
    var listing := DueListing(cards, order, now);
    var sorted := SortByDue(listing);
    SortByDueCorrect(listing);
    var n := Min(limit, |sorted|);
    assert sorted == sorted[..n] + sorted[n..];
  }

  /** Cutting a sorted list after `n` cards keeps the earliest ones: every
      card cut off is due no earlier than any card kept. */
  lemma PrefixOfSorted(sorted: seq<DueCard>, n: nat)
    requires SortedByDue(sorted) && n <= |sorted|
    ensures SortedByDue(sorted[..n])
    ensures forall x, k :: x in sorted && x !in sorted[..n] && 0 <= k < n ==>
      sorted[k].card.dueDate <= x.card.dueDate
  {
    forall x, k | x in sorted && x !in sorted[..n] && 0 <= k < n
      ensures sorted[k].card.dueDate <= x.card.dueDate
    {
      var j :| 0 <= j < |sorted| && sorted[j] == x;
    }
  }

  /** The sorted due listing holds every due card of the table and nothing
      else. */
  lemma DueCardsFacts(cards: map<string, Card>, order: seq<string>, now: int)
    requires forall i :: 0 <= i < |order| ==> order[i] in cards
    ensures var sorted := SortByDue(DueListing(cards, order, now));
      && SortedByDue(sorted)
      && (forall k :: 0 <= k < |sorted| ==>
            sorted[k].id in cards && sorted[k].card == cards[sorted[k].id] && sorted[k].card.dueDate <= now)
      && (forall i :: 0 <= i < |order| && cards[order[i]].dueDate <= now ==>
            DueCard(order[i], cards[order[i]]) in sorted)
  {
    var listing := Listing(cards, order);
    var due := DueListing(cards, order, now);
    var sorted := SortByDue(due);
    SortByDueCorrect(due);
    forall k | 0 <= k < |sorted|
      ensures sorted[k].id in cards && sorted[k].card == cards[sorted[k].id] && sorted[k].card.dueDate <= now
    {
      assert sorted[k] in multiset(due);
      assert sorted[k] in due;
      assert sorted[k] in listing;
    }
    forall i | 0 <= i < |order| && cards[order[i]].dueDate <= now
      ensures DueCard(order[i], cards[order[i]]) in sorted
    {
      assert listing[i] == DueCard(order[i], cards[order[i]]);
      assert DueAt(now)(listing[i]);
      assert listing[i] in due;
      assert listing[i] in multiset(sorted);
    }
  }

  /** New cards have never been answered correctly since their last failure. */
  function IsNew(d: DueCard): bool { d.card.repetitions == 0 }

  function IsReview(d: DueCard): bool { d.card.repetitions > 0 }

  /** The cards `startSession` selects: new ones first, then review ones. */
  datatype Selection = Selection(newCards: seq<DueCard>, reviewCards: seq<DueCard>)

  /** At most `newCardLimit` new cards in due order, then review cards in due
      order up to `totalCardLimit` minus the new cards taken (with
      JavaScript's `slice`, a negative limit or remainder drops cards from the
      end instead). */
  function SelectSession(due: seq<DueCard>, newCardLimit: int, totalCardLimit: int): (s: Selection)
    ensures s.newCards <= Filter(due, IsNew)
    ensures newCardLimit >= 0 ==> |s.newCards| == Min(newCardLimit, |Filter(due, IsNew)|)
    ensures newCardLimit < 0 ==> |s.newCards| == Max(0, |Filter(due, IsNew)| + newCardLimit)
    ensures s.reviewCards <= Filter(due, IsReview)
    ensures totalCardLimit >= |s.newCards| ==>
      |s.reviewCards| == Min(totalCardLimit - |s.newCards|, |Filter(due, IsReview)|)
    ensures totalCardLimit < |s.newCards| ==>
      |s.reviewCards| == Max(0, |Filter(due, IsReview)| + totalCardLimit - |s.newCards|)
    ensures 0 <= newCardLimit <= totalCardLimit ==> |s.newCards| + |s.reviewCards| <= totalCardLimit
    ensures forall k :: 0 <= k < |s.newCards| ==> s.newCards[k].card.repetitions == 0 && s.newCards[k] in due
    ensures forall k :: 0 <= k < |s.reviewCards| ==> s.reviewCards[k].card.repetitions > 0 && s.reviewCards[k] in due
  {
    var newOnes := Filter(due, IsNew);
    var review := Filter(due, IsReview);
    var newCards := JsPrefix(newOnes, newCardLimit);
    var reviewCards := JsPrefix(review, totalCardLimit - |newCards|);
    assert forall k :: 0 <= k < |newCards| ==> newCards[k] == newOnes[k];
    assert forall k :: 0 <= k < |reviewCards| ==> reviewCards[k] == review[k];
    Selection(newCards, reviewCards)
  }

  /** The selection `startSession` makes from the first 20 due cards. */
  function SessionPlan(cards: map<string, Card>, order: seq<string>, now: int, newCardLimit: int, totalCardLimit: int): (r: Selection)
    requires forall i :: 0 <= i < |order| ==> order[i] in cards
    ensures 0 <= newCardLimit <= totalCardLimit ==> |r.newCards| + |r.reviewCards| <= totalCardLimit
  {
    SelectSession(GetDueCards(cards, order, now, DefaultDueLimit), newCardLimit, totalCardLimit)
  }

  /** `startSession()` with its default limits, as the study screen calls
      it: at most five new cards, at most twenty cards in all, and every due
      new card when fewer than five are due. */
  lemma DefaultSessionPlan(cards: map<string, Card>, order: seq<string>, now: int)
    requires forall i :: 0 <= i < |order| ==> order[i] in cards
    ensures var due := GetDueCards(cards, order, now, DefaultDueLimit);
      var sel := SessionPlan(cards, order, now, DefaultNewCardLimit, DefaultTotalCardLimit);
      && |sel.newCards| == Min(5, |Filter(due, IsNew)|)
      && |sel.newCards| + |sel.reviewCards| <= 20
      && |sel.reviewCards| == Min(20 - |sel.newCards|, |Filter(due, IsReview)|)
  {
  }

  /** A session entry: a copy of the card taken when the session started,
      with whether and how it has been answered. */
  datatype SessionCard = SessionCard(id: string, card: Card, answered: bool, quality: Option<int>)

  function Snapshot(d: DueCard): SessionCard {
    SessionCard(d.id, d.card, false, None)
  }

  /** The fresh session deck: every selected card, unanswered. */
  function Snapshots(ds: seq<DueCard>): (r: seq<SessionCard>)
    ensures |r| == |ds|
    ensures forall k :: 0 <= k < |r| ==>
      r[k].id == ds[k].id && r[k].card == ds[k].card && !r[k].answered && r[k].quality == None
  {
    seq(|ds|, i requires 0 <= i < |ds| => Snapshot(ds[i]))
  }

  /** Any reordering of a fresh deck is a fresh deck of the same size. */
  lemma ShuffledDeckFresh(session: seq<SessionCard>, ds: seq<DueCard>)
    requires multiset(session) == multiset(Snapshots(ds))
    ensures |session| == |ds|
    ensures forall k :: 0 <= k < |session| ==> !session[k].answered && session[k].quality == None
  {
    var deck := Snapshots(ds);
    assert |multiset(session)| == |multiset(deck)|;
    forall k | 0 <= k < |session|
      ensures !session[k].answered && session[k].quality == None
    {
      assert session[k] in multiset(deck);
    }
  }

  /** `startSession`'s report. */
  datatype SessionInfo = SessionInfo(totalCards: nat, newCards: nat, reviewCards: nat)

  /** `currentSession.find(card => !card.answered)`, as an index. */
  function FirstUnanswered(session: seq<SessionCard>): (i: Option<nat>)
    ensures i.None? ==> forall k :: 0 <= k < |session| ==> session[k].answered
    ensures i.Some? ==>
      (i.value < |session| && !session[i.value].answered &&
       forall k :: 0 <= k < i.value ==> session[k].answered)
  {
    if session == [] then None
    else if !session[0].answered then Some(0)
    else match FirstUnanswered(session[1..])
      case None => None
      case Some(j) => Some(j + 1)
  }

  /** `getNextCard`: the first unanswered entry, or none once every entry has
      been answered. */
  function GetNextCard(session: seq<SessionCard>): (r: Option<SessionCard>)
    ensures r.None? <==> forall k :: 0 <= k < |session| ==> session[k].answered
    ensures r.Some? ==> !r.value.answered && r.value in session
    ensures r.Some? ==>
      exists i :: 0 <= i < |session| && session[i] == r.value && (forall k :: 0 <= k < i ==> session[k].answered)
  {
    match FirstUnanswered(session)
    case None => None
    case Some(i) => Some(session[i])
  }

  /** `currentSession.findIndex(card => card.id === cardId)`. */
  function FindById(session: seq<SessionCard>, cardId: string): (i: Option<nat>)
    ensures i.None? ==> forall k :: 0 <= k < |session| ==> session[k].id != cardId
    ensures i.Some? ==>
      (i.value < |session| && session[i.value].id == cardId &&
       forall k :: 0 <= k < i.value ==> session[k].id != cardId)
  {
    if session == [] then None
    else if session[0].id == cardId then Some(0)
    else match FindById(session[1..], cardId)
      case None => None
      case Some(j) => Some(j + 1)
  }

  /** The session after `updateSessionCard(cardId, quality)`: the first entry
      with that key is answered with that quality; every other entry, and the
      whole session when no entry has the key, stays as it was. */
  function MarkAnswered(session: seq<SessionCard>, cardId: string, quality: int): (r: seq<SessionCard>)
    ensures |r| == |session|
    ensures forall k :: 0 <= k < |r| && FindById(session, cardId) != Some(k) ==> r[k] == session[k]
    ensures FindById(session, cardId).Some? ==>
      var i := FindById(session, cardId).value;
      r[i].answered && r[i].quality == Some(quality) &&
      r[i].id == session[i].id && r[i].card == session[i].card
  {
    match FindById(session, cardId)
    case None => session
    case Some(i) => session[i := session[i].(answered := true, quality := Some(quality))]
  }

  function IsAnswered(c: SessionCard): bool { c.answered }

  /** The sum of the recorded qualities of the answered entries (a missing
      quality adds 0, as `null` does in a JavaScript sum). */
  function QualitySum(session: seq<SessionCard>): (r: int)
    ensures Count(session, IsAnswered) == 0 ==> r == 0
  {
    if session == [] then 0
    else (if session[0].answered then session[0].quality.GetOr(0) else 0) + QualitySum(session[1..])
  }

  /** What `endSession` returns. */
  datatype EndResult =
    | NoActiveSession
    | SessionStats(totalCards: nat, cardsCompleted: nat, averageQuality: real)

  /** The statistics of a session: its size, how many entries were answered,
      and the mean quality of the answered ones (0 when none was). */
  function SessionStatsOf(session: seq<SessionCard>): (st: EndResult)
    ensures st.SessionStats? && st.totalCards == |session|
    ensures st.cardsCompleted == |Filter(session, IsAnswered)| <= |session|
    ensures st.cardsCompleted == 0 ==> st.averageQuality == 0.0
    ensures st.cardsCompleted > 0 ==>
      st.averageQuality == QualitySum(session) as real / st.cardsCompleted as real
  {
    var completed := Count(session, IsAnswered);
    var average := if completed > 0 then QualitySum(session) as real / completed as real else 0.0;
    SessionStats(|session|, completed, average)
  }

  /** Answered entries whose quality lies on the 0..5 rating scale. */
  ghost predicate QualitiesRated(session: seq<SessionCard>) {
    forall k :: 0 <= k < |session| && session[k].answered ==>
      session[k].quality.Some? && 0 <= session[k].quality.value <= 5
  }

  lemma {:induction false} QualitySumBounds(session: seq<SessionCard>)
    requires QualitiesRated(session)
    ensures 0 <= QualitySum(session) <= 5 * Count(session, IsAnswered)
  {
    if session != [] {
      assert QualitiesRated(session[1..]) by {
        forall k | 0 <= k < |session[1..]| && session[1..][k].answered
          ensures session[1..][k].quality.Some? && 0 <= session[1..][k].quality.value <= 5
        {
          assert session[1..][k] == session[k + 1];
        }
      }
      QualitySumBounds(session[1..]);
    }
  }

  /** A mean of values between 0 and 5 lies between 0 and 5. */
  lemma MeanInRange(sum: int, n: int)
    requires n > 0 && 0 <= sum <= 5 * n
    ensures 0.0 <= sum as real / n as real <= 5.0
  {
    var a := sum as real / n as real;
    assert a * n as real == sum as real;
  }

  /** When every answer was rated 0..5, the reported average is in 0..5. */
  lemma AverageQualityInRange(session: seq<SessionCard>)
    requires QualitiesRated(session)
    ensures 0.0 <= SessionStatsOf(session).averageQuality <= 5.0
  {
    var st := SessionStatsOf(session);
    QualitySumBounds(session);
    if st.cardsCompleted > 0 {
      MeanInRange(QualitySum(session), st.cardsCompleted);
    }
  }

  /** `getStats`'s report. */
  datatype CardStats = CardStats(totalCards: nat, cardsWithRepetitions: nat, masteredCards: nat, dueCards: nat)

  function HasRepetitions(d: DueCard): bool { d.card.repetitions > 0 }

  function IsMastered(d: DueCard): bool { d.card.interval >= MasteredInterval }

  /** `getStats`: the number of cards, of cards answered correctly since
      their last failure, of cards scheduled 30 days or more ahead, and of due
      cards, which is the number `getDueCards` returns without a limit. */
  function GetStats(cards: map<string, Card>, order: seq<string>, now: int): (st: CardStats)
    requires forall i :: 0 <= i < |order| ==> order[i] in cards
    ensures st.totalCards == |cards|
    ensures st.cardsWithRepetitions == |Filter(Listing(cards, order), HasRepetitions)| <= |order|
    ensures st.masteredCards == |Filter(Listing(cards, order), IsMastered)| <= |order|
    ensures st.dueCards == |DueListing(cards, order, now)| <= |order|
  {
    var entries := Listing(cards, order);
    CardStats(|cards|, Count(entries, HasRepetitions), Count(entries, IsMastered), Count(entries, DueAt(now)))
  }

  /** If every entry satisfying `p` satisfies `q`, fewer entries satisfy `p`. */
  lemma {:induction false} CountMonotone(s: seq<DueCard>, p: DueCard -> bool, q: DueCard -> bool)
    requires forall k :: 0 <= k < |s| && p(s[k]) ==> q(s[k])
    ensures Count(s, p) <= Count(s, q)
  {
    if s != [] {
      assert forall k :: 1 <= k < |s| ==> s[1..][k - 1] == s[k];
      CountMonotone(s[1..], p, q);
    }
  }

  /** In a table of reachable cards, every mastered card has repetitions, so
      `masteredCards <= cardsWithRepetitions <= totalCards`. */
  lemma MasteredHaveRepetitions(cards: map<string, Card>, order: seq<string>, now: int)
    requires TableOrder(cards, order)
    requires forall id :: id in cards ==> Scheduled(cards[id])
    ensures var st := GetStats(cards, order, now);
      st.masteredCards <= st.cardsWithRepetitions <= st.totalCards
  {
    var entries := Listing(cards, order);
    forall k | 0 <= k < |entries| && IsMastered(entries[k]) ensures HasRepetitions(entries[k]) {
      assert Scheduled(entries[k].card);
    }
    CountMonotone(entries, IsMastered, HasRepetitions);
    TableSize(cards, order);
  }

  /** The spaced-repetition system: the card table and the study session. */
  class SpacedRepetitionSystem {
    var cards: map<string, Card>
    var cardOrder: seq<string>
    var currentSession: seq<SessionCard>
    var sessionInProgress: bool

    ghost predicate Valid()
      reads this
    {
      TableOrder(cards, cardOrder) && (!sessionInProgress ==> currentSession == [])
    }

    /** Starts from the stored card table, with no session. */
    constructor (stored: map<string, Card>, storedOrder: seq<string>)
      requires TableOrder(stored, storedOrder)
      ensures Valid()
      ensures cards == stored && cardOrder == storedOrder
      ensures currentSession == [] && !sessionInProgress
    {
      cards := stored;
      cardOrder := storedOrder;
      currentSession := [];
      sessionInProgress := false;
    }

    /** `addCard(category, word)`: creates the card with default values when
        its key is absent, and returns the card stored under the key. */
    method AddCard(category: string, word: string, now: int) returns (card: Card)
      requires Valid()
      modifies this`cards, this`cardOrder
      ensures Valid()
      ensures var id := CardId(category, word);
        if id in old(cards) then
          cards == old(cards) && cardOrder == old(cardOrder) && card == old(cards)[id]
        else
          card == NewCard(category, word, now) &&
          cards == old(cards)[id := card] && cardOrder == old(cardOrder) + [id]
    {
      var id := CardId(category, word);
      if id !in cards {
        cards := cards[id := NewCard(category, word, now)];
        cardOrder := cardOrder + [id];
      }
      card := cards[id];
    }

    /** `processReview(cardId, quality)`: reschedules the card and, during a
        session, marks its entry answered. An unknown key changes nothing. */
    method ProcessReview(cardId: string, quality: int, now: int) returns (r: Option<Card>)
      requires Valid()
      modifies this`cards, this`currentSession
      ensures Valid()
      ensures cardId !in old(cards) ==>
        r == None && cards == old(cards) && currentSession == old(currentSession)
      ensures cardId in old(cards) ==>
        r == Some(Review(old(cards)[cardId], quality, now)) &&
        cards == old(cards)[cardId := r.value] &&
        currentSession == if sessionInProgress then MarkAnswered(old(currentSession), cardId, quality)
                          else old(currentSession)
    {
      if cardId !in cards {
        return None;
      }
      var card := Review(cards[cardId], quality, now);
      cards := cards[cardId := card];
      if sessionInProgress {
        UpdateSessionCard(cardId, quality);
      }
      r := Some(card);
    }

    /** `startSession(newCardLimit, totalCardLimit)`: deals a shuffled deck
        from the first 20 due cards. */
    method StartSession(now: int, newCardLimit: int, totalCardLimit: int) returns (info: SessionInfo)
      requires Valid()
      modifies this`currentSession, this`sessionInProgress
      ensures Valid() && sessionInProgress
      ensures var sel := SessionPlan(cards, cardOrder, now, newCardLimit, totalCardLimit);
        && info.newCards == |sel.newCards| && info.reviewCards == |sel.reviewCards|
        && multiset(currentSession) == multiset(Snapshots(sel.newCards + sel.reviewCards))
      ensures |currentSession| == info.totalCards == info.newCards + info.reviewCards
      ensures forall k :: 0 <= k < |currentSession| ==>
        !currentSession[k].answered && currentSession[k].quality == None
    {
      var sel := SessionPlan(cards, cardOrder, now, newCardLimit, totalCardLimit);
      info := DealSession(sel);
    }

    /** The deck of `startSession`: snapshots of the selected new and review
        cards, shuffled, with the session marked as in progress. */
    method DealSession(sel: Selection) returns (info: SessionInfo)
      requires Valid()
      modifies this`currentSession, this`sessionInProgress
      ensures Valid() && sessionInProgress
      ensures info == SessionInfo(|sel.newCards| + |sel.reviewCards|, |sel.newCards|, |sel.reviewCards|)
      ensures multiset(currentSession) == multiset(Snapshots(sel.newCards + sel.reviewCards))
      ensures |currentSession| == info.totalCards
      ensures forall k :: 0 <= k < |currentSession| ==>
        !currentSession[k].answered && currentSession[k].quality == None
    {
      var selected := sel.newCards + sel.reviewCards;
      sessionInProgress := true;
      currentSession := Snapshots(selected);
      ShuffleSession();
      ShuffledDeckFresh(currentSession, selected);
      info := SessionInfo(|selected|, |sel.newCards|, |sel.reviewCards|);
    }

    /** `shuffleSession`: a Fisher-Yates shuffle of the session; the random
        index is an arbitrary choice in range. */
    method ShuffleSession()
      requires Valid()
      modifies this`currentSession
      ensures Valid()
      ensures multiset(currentSession) == multiset(old(currentSession))
      ensures |currentSession| == |old(currentSession)|
    {
      var i := |currentSession| - 1;
      while i > 0
        invariant |currentSession| == |old(currentSession)|
        invariant multiset(currentSession) == multiset(old(currentSession))
      {
        var j :| 0 <= j <= i;
        currentSession := currentSession[i := currentSession[j]][j := currentSession[i]];
        i := i - 1;
      }
    }

    /** `updateSessionCard(cardId, quality)`. */
    method UpdateSessionCard(cardId: string, quality: int)
      requires Valid()
      modifies this`currentSession
      ensures Valid()
      ensures currentSession == MarkAnswered(old(currentSession), cardId, quality)
    {
      var cardIndex := FindById(currentSession, cardId);
      if cardIndex.Some? {
        var i := cardIndex.value;
        currentSession := currentSession[i := currentSession[i].(answered := true)];
        currentSession := currentSession[i := currentSession[i].(quality := Some(quality))];
      }
    }

    /** `endSession`: without an active session only a message; otherwise
        the session's statistics, after which the session is cleared. */
    method EndSession() returns (result: EndResult)
      requires Valid()
      modifies this`currentSession, this`sessionInProgress
      ensures Valid() && !sessionInProgress && currentSession == []
      ensures !old(sessionInProgress) ==> result == NoActiveSession
      ensures old(sessionInProgress) ==> result == SessionStatsOf(old(currentSession))
    {
      if !sessionInProgress {
        return NoActiveSession;
      }
      result := SessionStatsOf(currentSession);
      sessionInProgress := false;
      currentSession := [];
    }
  }
}
