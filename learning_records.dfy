/**
 * The forgetting-curve learning records: every answered question becomes a
 * session with a mastery tier, schedules five review obligations from the
 * tier's interval table, and triggers a full recomputation of the statistics
 * (totals, correct answers, and the weak topics whose mean score is below 7).
 *
 * Time is an integer count of seconds (`Clock.Instant`); the wall clock is
 * the `now` parameter of `AddQaRecord` and the `asOf` parameter of
 * `GetPendingReviews`.
 */
module LearningRecords {
  import opened Clock
  import opened StableSort
  import opened Ratios

  // ---------------------------------------------------------------- mastery

  datatype Mastery = Excellent | Good | Fair | Poor

  /** The mastery tier of a score; lower bounds are inclusive. */
  function CalculateMastery(score: int): (m: Mastery)
    ensures m == Excellent <==> 9 <= score
    ensures m == Good <==> 7 <= score < 9
    ensures m == Fair <==> 5 <= score < 7
    ensures m == Poor <==> score < 5
  {
    if score >= 9 then Excellent
    else if score >= 7 then Good
    else if score >= 5 then Fair
    else Poor
  }

  /** The tiers from worst (0) to best (3). */
  function Rank(m: Mastery): nat
  {
    match m
    case Poor => 0
    case Fair => 1
    case Good => 2
    case Excellent => 3
  }

  /** A higher score never yields a lower tier. */
  lemma MasteryMonotone(a: int, b: int)
    requires a <= b
    ensures Rank(CalculateMastery(a)) <= Rank(CalculateMastery(b))
  {
  }

  /** The review intervals, in days, of each tier. */
  function Intervals(m: Mastery): (r: seq<nat>)
    ensures |r| == 5 && r[0] == 1
    ensures forall i, j :: 0 <= i < j < |r| ==> r[i] <= r[j]
  {
    match m
    case Excellent => [1, 3, 7, 15, 30]
    case Good => [1, 2, 5, 10, 20]
    case Fair => [1, 2, 4, 7, 14]
    case Poor => [1, 1, 3, 5, 10]
  }

  /**
   * Only the poor table repeats an interval (its first); the other three
   * tables are strictly increasing.
   */
  lemma IntervalsRepeatOnlyForPoor(m: Mastery)
    ensures m == Poor ==> Intervals(m)[0] == Intervals(m)[1]
    ensures m != Poor ==> forall i, j :: 0 <= i < j < 5 ==> Intervals(m)[i] < Intervals(m)[j]
  {
  }

  // ---------------------------------------------------------------- records

  datatype Session = Session(
    timestamp: Instant,
    topic: string,
    questionZh: string,
    questionEn: string,
    userAnswer: string,
    correctAnswerZh: string,
    correctAnswerEn: string,
    score: int,
    notes: string,
    masteryLevel: Mastery)

  datatype ReviewObligation = ReviewObligation(
    reviewDate: Instant,
    topic: string,
    questionZh: string,
    questionEn: string,
    masteryLevel: Mastery,
    intervalDays: nat,
    completed: bool)

  datatype WeakTopic = WeakTopic(topic: string, averageScore: real, attempts: nat)

  datatype Statistics = Statistics(totalQuestions: nat, correctAnswers: nat, averageScore: real, weakTopics: seq<WeakTopic>)

  /** The statistics of a new record file. */
  const InitialStatistics := Statistics(0, 0, 0.0, [])

  // ---------------------------------------------------------------- review schedule

  /** The obligation to review session `s` after `interval` days. */
  function Obligation(s: Session, interval: nat): ReviewObligation
  {
    ReviewObligation(AddDays(s.timestamp, interval), s.topic, s.questionZh, s.questionEn, s.masteryLevel, interval, false)
  }

  /** One obligation per interval, in the order of the intervals. */
  function ObligationsAt(s: Session, intervals: seq<nat>): (r: seq<ReviewObligation>)
    ensures |r| == |intervals|
    ensures forall k :: 0 <= k < |r| ==> r[k] == Obligation(s, intervals[k])
  {
    if intervals == [] then []
    else ObligationsAt(s, intervals[..|intervals| - 1]) + [Obligation(s, intervals[|intervals| - 1])]
  }

  /** The obligations `_schedule_reviews` appends for session `s`. */
  function ObligationsFor(s: Session): seq<ReviewObligation>
  {
    ObligationsAt(s, Intervals(s.masteryLevel))
  }

  /**
   * Five obligations, in interval order, each due the interval's number of
   * days after the session at the same time of day, open, and carrying the
   * session's topic, question texts and mastery tier.
   */
  lemma ObligationsForShape(s: Session)
    ensures |ObligationsFor(s)| == 5
    ensures forall k :: 0 <= k < 5 ==>
      var o := ObligationsFor(s)[k];
      && o.intervalDays == Intervals(s.masteryLevel)[k]
      && DayOf(o.reviewDate) == DayOf(s.timestamp) + o.intervalDays
      && o.reviewDate - DayOf(o.reviewDate) * SecondsPerDay == s.timestamp - DayOf(s.timestamp) * SecondsPerDay
      && !o.completed
      && o.topic == s.topic && o.questionZh == s.questionZh && o.questionEn == s.questionEn
      && o.masteryLevel == s.masteryLevel
  {
  }

  /**
   * A poor session gets two identical obligations (same question, same date);
   * for every other tier the review dates strictly increase.
   */
  lemma PoorSessionTwins(s: Session)
    ensures s.masteryLevel == Poor ==> ObligationsFor(s)[0] == ObligationsFor(s)[1]
    ensures s.masteryLevel != Poor ==>
      forall i, j :: 0 <= i < j < 5 ==> ObligationsFor(s)[i].reviewDate < ObligationsFor(s)[j].reviewDate
  {
    IntervalsRepeatOnlyForPoor(s.masteryLevel);
  }

  /** The planned schedule of a list of sessions: their obligations, session by session. */
  function Plan(ss: seq<Session>): (r: seq<ReviewObligation>)
    ensures |r| == 5 * |ss|
  {
    if ss == [] then []
    else Plan(ss[..|ss| - 1]) + ObligationsFor(ss[|ss| - 1])
  }

  /** An obligation with its completion flag cleared. */
  function Reopened(o: ReviewObligation): ReviewObligation
  {
    o.(completed := false)
  }

  /** The schedule is the plan of the sessions, up to which obligations are completed. */
  ghost predicate FollowsPlan(schedule: seq<ReviewObligation>, ss: seq<Session>)
  {
    && |schedule| == |Plan(ss)|
    && forall k :: 0 <= k < |schedule| ==> Reopened(schedule[k]) == Plan(ss)[k]
  }

  /** Recording a session and appending its obligations keeps the schedule on plan. */
  lemma AppendFollowsPlan(schedule: seq<ReviewObligation>, ss: seq<Session>, s: Session)
    requires FollowsPlan(schedule, ss)
    ensures FollowsPlan(schedule + ObligationsFor(s), ss + [s])
  {
    assert (ss + [s])[..|ss|] == ss;
  }

  /** Changing completion flags only keeps the schedule on plan. */
  lemma FlagsKeepPlan(schedule: seq<ReviewObligation>, r: seq<ReviewObligation>, ss: seq<Session>)
    requires FollowsPlan(schedule, ss)
    requires |r| == |schedule| && forall j :: 0 <= j < |r| ==> Reopened(r[j]) == Reopened(schedule[j])
    ensures FollowsPlan(r, ss)
  {
  }

  // ---------------------------------------------------------------- pending reviews

  /** Open and due on or before the day of `asOf` (dates are compared, times are ignored). */
  predicate IsDue(o: ReviewObligation, asOf: Instant)
  {
    !o.completed && DayOf(o.reviewDate) <= DayOf(asOf)
  }

  /** The due obligations of the schedule, in stored order. */
  function PendingAsOf(schedule: seq<ReviewObligation>, asOf: Instant): (r: seq<ReviewObligation>)
    ensures |r| <= |schedule|
  {
    if schedule == [] then []
    else
      var last := schedule[|schedule| - 1];
      PendingAsOf(schedule[..|schedule| - 1], asOf) + (if IsDue(last, asOf) then [last] else [])
  }

  /** The pending list holds exactly the due obligations of the schedule. */
  lemma {:induction false} PendingExactly(schedule: seq<ReviewObligation>, asOf: Instant, o: ReviewObligation)
    ensures o in PendingAsOf(schedule, asOf) <==> o in schedule && IsDue(o, asOf)
  {
    if schedule != [] {
      var front, last := schedule[..|schedule| - 1], schedule[|schedule| - 1];
      assert schedule == front + [last];
      PendingExactly(front, asOf, o);
    }
  }

  // ---------------------------------------------------------------- completing reviews

  /** The obligation is for question `q` due at `date`. */
  predicate Matches(o: ReviewObligation, q: string, date: Instant)
  {
    o.questionZh == q && o.reviewDate == date
  }

  /** The index of the first obligation matching `q` and `date`, or the length when none does. */
  function FirstMatch(schedule: seq<ReviewObligation>, q: string, date: Instant): (k: nat)
    ensures k <= |schedule|
    ensures k < |schedule| ==> Matches(schedule[k], q, date)
    ensures forall j :: 0 <= j < k ==> !Matches(schedule[j], q, date)
  {
    if schedule == [] then 0
    else if Matches(schedule[0], q, date) then 0
    else 1 + FirstMatch(schedule[1..], q, date)
  }

  /** `mark_review_completed` as written: complete the first match, whether or not it is open. */
  function MarkFirstMatch(schedule: seq<ReviewObligation>, q: string, date: Instant): (r: seq<ReviewObligation>)
    ensures |r| == |schedule|
  {
    var k := FirstMatch(schedule, q, date);
    if k < |schedule| then schedule[k := schedule[k].(completed := true)] else schedule
  }

  /**
   * Completing touches at most the first match: nothing changes when nothing
   * matches, no flag is ever cleared, and every other obligation is untouched.
   */
  lemma MarkFirstMatchChanges(schedule: seq<ReviewObligation>, q: string, date: Instant)
    ensures var r := MarkFirstMatch(schedule, q, date);
      && (forall j :: 0 <= j < |schedule| ==> !Matches(schedule[j], q, date)) ==> r == schedule
    ensures var r := MarkFirstMatch(schedule, q, date);
      forall j :: 0 <= j < |schedule| ==> Reopened(r[j]) == Reopened(schedule[j]) && (schedule[j].completed ==> r[j].completed)
    ensures var r := MarkFirstMatch(schedule, q, date);
      forall j :: 0 <= j < |schedule| && j != FirstMatch(schedule, q, date) ==> r[j] == schedule[j]
    ensures var k := FirstMatch(schedule, q, date);
      k < |schedule| ==> MarkFirstMatch(schedule, q, date)[k].completed
  {
  }

  /** Completing the same question and date twice changes nothing the second time. */
  lemma MarkFirstMatchIdempotent(schedule: seq<ReviewObligation>, q: string, date: Instant)
    ensures MarkFirstMatch(MarkFirstMatch(schedule, q, date), q, date) == MarkFirstMatch(schedule, q, date)
  {
    var r := MarkFirstMatch(schedule, q, date);
    var k := FirstMatch(schedule, q, date);
    if k < |schedule| {
      FirstMatchAgain(schedule, r, q, date, k);
    }
  }

  /** Changing only the completion flag of the first match keeps it the first match. */
  lemma {:induction false} FirstMatchAgain(schedule: seq<ReviewObligation>, r: seq<ReviewObligation>, q: string, date: Instant, k: nat)
    requires k == FirstMatch(schedule, q, date) && k < |schedule|
    requires |r| == |schedule| && forall j :: 0 <= j < |r| ==> Reopened(r[j]) == Reopened(schedule[j])
    ensures FirstMatch(r, q, date) == k
    decreases |schedule|
  {
    assert Matches(r[0], q, date) == Matches(schedule[0], q, date) by {
      assert Reopened(r[0]) == Reopened(schedule[0]);
    }
    if k > 0 {
      FirstMatchAgain(schedule[1..], r[1..], q, date, k - 1);
    }
  }

  /**
   * The obligations of a poor session, as scheduled: however often its first
   * review is marked completed, the second obligation for the same question
   * and date stays open.
   */
  lemma PoorTwinNeverCompleted(s: Session)
    requires s.masteryLevel == Poor
    ensures var schedule := ObligationsFor(s);
      var marked := MarkFirstMatch(schedule, s.questionZh, schedule[0].reviewDate);
      && marked[0].completed
      && !marked[1].completed
      && MarkFirstMatch(marked, s.questionZh, schedule[0].reviewDate) == marked
  {
    var schedule := ObligationsFor(s);
    PoorSessionTwins(s);
    assert FirstMatch(schedule, s.questionZh, schedule[0].reviewDate) == 0;
    MarkFirstMatchIdempotent(schedule, s.questionZh, schedule[0].reviewDate);
  }

  /** The index of the first OPEN obligation matching `q` and `date`, or the length when none is open. */
  function FirstPendingMatch(schedule: seq<ReviewObligation>, q: string, date: Instant): (k: nat)
    ensures k <= |schedule|
    ensures k < |schedule| ==> Matches(schedule[k], q, date) && !schedule[k].completed
    ensures forall j :: 0 <= j < k ==> !Matches(schedule[j], q, date) || schedule[j].completed
  {
    if schedule == [] then 0
    else if Matches(schedule[0], q, date) && !schedule[0].completed then 0
    else 1 + FirstPendingMatch(schedule[1..], q, date)
  }

  /** The corrected completion: complete the first open match. */
  function MarkFirstPending(schedule: seq<ReviewObligation>, q: string, date: Instant): (r: seq<ReviewObligation>)
    ensures |r| == |schedule|
  {
    var k := FirstPendingMatch(schedule, q, date);
    if k < |schedule| then schedule[k := schedule[k].(completed := true)] else schedule
  }

  /** The number of open obligations for question `q` due at `date`. */
  function OpenMatches(schedule: seq<ReviewObligation>, q: string, date: Instant): nat
  {
    if schedule == [] then 0
    else (if Matches(schedule[0], q, date) && !schedule[0].completed then 1 else 0) + OpenMatches(schedule[1..], q, date)
  }

  /**
   * Each corrected completion closes exactly one open match while one
   * exists, so `n` completions close `n` twins.
   */
  lemma {:induction false} MarkFirstPendingCloses(schedule: seq<ReviewObligation>, q: string, date: Instant)
    ensures OpenMatches(schedule, q, date) > 0 ==>
      OpenMatches(MarkFirstPending(schedule, q, date), q, date) == OpenMatches(schedule, q, date) - 1
    ensures OpenMatches(schedule, q, date) == 0 ==> MarkFirstPending(schedule, q, date) == schedule
  {
    if schedule != [] {
      var k := FirstPendingMatch(schedule, q, date);
      var r := MarkFirstPending(schedule, q, date);
      MarkFirstPendingCloses(schedule[1..], q, date);
      if k > 0 {
        assert r[1..] == MarkFirstPending(schedule[1..], q, date);
      } else {
        assert r[1..] == schedule[1..];
      }
    }
  }

  /** With the corrected completion, marking a poor session's first review twice closes both twins. */
  lemma PoorTwinsBothCompleted(s: Session)
    requires s.masteryLevel == Poor
    ensures var schedule := ObligationsFor(s);
      var date := schedule[0].reviewDate;
      var twice := MarkFirstPending(MarkFirstPending(schedule, s.questionZh, date), s.questionZh, date);
      twice[0].completed && twice[1].completed
  {
    var schedule := ObligationsFor(s);
    var date := schedule[0].reviewDate;
    PoorSessionTwins(s);
    var once := MarkFirstPending(schedule, s.questionZh, date);
    assert FirstPendingMatch(schedule, s.questionZh, date) == 0;
    assert FirstPendingMatch(once, s.questionZh, date) == 1;
  }

  // ---------------------------------------------------------------- statistics

  /** The number of sessions scoring at least 7. */
  function CountCorrect(ss: seq<Session>): (n: nat)
    ensures n <= |ss|
  {
    if ss == [] then 0
    else CountCorrect(ss[..|ss| - 1]) + (if ss[|ss| - 1].score >= 7 then 1 else 0)
  }

  /** The sum of the session scores. */
  function Sum(xs: seq<int>): int
  {
    if xs == [] then 0 else Sum(xs[..|xs| - 1]) + xs[|xs| - 1]
  }

  /** Summing one more number. */
  lemma SumSnoc(xs: seq<int>, x: int)
    ensures Sum(xs + [x]) == Sum(xs) + x
  {
    assert (xs + [x])[..|xs|] == xs;
  }

  /** The scores of all sessions, in order. */
  function AllScores(ss: seq<Session>): (r: seq<int>)
    ensures |r| == |ss|
  {
    if ss == [] then [] else AllScores(ss[..|ss| - 1]) + [ss[|ss| - 1].score]
  }

  /** The sum of the session scores. */
  function ScoreSum(ss: seq<Session>): int
  {
    Sum(AllScores(ss))
  }

  /** The exact mean of a non-empty list of scores. */
  function Mean(xs: seq<int>): real
    requires |xs| > 0
  {
    Sum(xs) as real / |xs| as real
  }

  /** The source's test `mean < 7` is the integer test `sum < 7 * count`. */
  lemma MeanBelowSeven(xs: seq<int>)
    requires |xs| > 0
    ensures Mean(xs) < 7.0 <==> Sum(xs) < 7 * |xs|
  {
    QuotientAtLeast(Sum(xs) as real, |xs| as real, 7.0);
    assert (7 * |xs|) as real == 7.0 * |xs| as real;
  }

  /** The topics of the sessions, each once, in order of first appearance. */
  function TopicOrder(ss: seq<Session>): (r: seq<string>)
    ensures forall i, j :: 0 <= i < j < |r| ==> r[i] != r[j]
  {
    if ss == [] then []
    else
      var front := TopicOrder(ss[..|ss| - 1]);
      if ss[|ss| - 1].topic in front then front else front + [ss[|ss| - 1].topic]
  }

  /** The scores of the sessions on topic `t`, in order. */
  function ScoresOf(ss: seq<Session>, t: string): seq<int>
  {
    if ss == [] then []
    else ScoresOf(ss[..|ss| - 1], t) + (if ss[|ss| - 1].topic == t then [ss[|ss| - 1].score] else [])
  }

  /** A topic is listed exactly when it has scores, that is, when some session is on it. */
  lemma {:induction false} TopicOrderExactly(ss: seq<Session>, t: string)
    ensures t in TopicOrder(ss) <==> |ScoresOf(ss, t)| > 0
  {
    if ss != [] {
      TopicOrderExactly(ss[..|ss| - 1], t);
    }
  }

  /** The weak entry of topic `t`, if its mean is below 7. */
  function WeakEntry(ss: seq<Session>, t: string): seq<WeakTopic>
  {
    var sc := ScoresOf(ss, t);
    if Sum(sc) < 7 * |sc| then [WeakTopic(t, Mean(sc), |sc|)] else []
  }

  /** The weak topics among `order`, in that order. */
  function WeakAmong(ss: seq<Session>, order: seq<string>): seq<WeakTopic>
  {
    if order == [] then []
    else WeakAmong(ss, order[..|order| - 1]) + WeakEntry(ss, order[|order| - 1])
  }

  /** The sort key of the weak topics: `list.sort` ascending on the mean is descending on its negation. */
  function NegatedMean(w: WeakTopic): real
  {
    -w.averageScore
  }

  /** The statistics `_update_statistics` computes for a non-empty session list. */
  function StatisticsOf(ss: seq<Session>): Statistics
  {
    if ss == [] then InitialStatistics
    else
      Statistics(|ss|, CountCorrect(ss), ScoreSum(ss) as real / |ss| as real,
                 SortDescending(WeakAmong(ss, TopicOrder(ss)), NegatedMean))
  }

  /** Tallying one more session. */
  lemma TalliesStep(ss: seq<Session>, i: nat)
    requires i < |ss|
    ensures CountCorrect(ss[..i + 1]) == CountCorrect(ss[..i]) + (if ss[i].score >= 7 then 1 else 0)
    ensures ScoreSum(ss[..i + 1]) == ScoreSum(ss[..i]) + ss[i].score
  {
    assert ss[..i + 1][..i] == ss[..i];
    SumSnoc(AllScores(ss[..i]), ss[i].score);
  }

  /** Grouping one more session by topic. */
  lemma GroupStep(ss: seq<Session>, i: nat)
    requires i < |ss|
    ensures var t := ss[i].topic;
      TopicOrder(ss[..i + 1]) == if t in TopicOrder(ss[..i]) then TopicOrder(ss[..i]) else TopicOrder(ss[..i]) + [t]
    ensures forall t :: ScoresOf(ss[..i + 1], t) == ScoresOf(ss[..i], t) + (if ss[i].topic == t then [ss[i].score] else [])
    ensures ss[i].topic !in TopicOrder(ss[..i]) ==> ScoresOf(ss[..i], ss[i].topic) == []
  {
    assert ss[..i + 1][..i] == ss[..i];
    TopicOrderExactly(ss[..i], ss[i].topic);
  }

  /** Judging one more topic. */
  lemma WeakStep(ss: seq<Session>, order: seq<string>, k: nat)
    requires k < |order|
    ensures WeakAmong(ss, order[..k + 1]) == WeakAmong(ss, order[..k]) + WeakEntry(ss, order[k])
  {
    assert order[..k + 1][..k] == order[..k];
  }

  /** The weak list of `order` holds exactly the entries of its topics whose mean is below 7. */
  lemma {:induction false} WeakAmongExactly(ss: seq<Session>, order: seq<string>, w: WeakTopic)
    ensures w in WeakAmong(ss, order) <==>
      w.topic in order && |ScoresOf(ss, w.topic)| > 0 && Sum(ScoresOf(ss, w.topic)) < 7 * |ScoresOf(ss, w.topic)|
      && w == WeakTopic(w.topic, Mean(ScoresOf(ss, w.topic)), |ScoresOf(ss, w.topic)|)
  {
    if order != [] {
      var front, last := order[..|order| - 1], order[|order| - 1];
      WeakAmongExactly(ss, front, w);
      assert order == front + [last];
    }
  }

  /** A topic has scores exactly when some session is on it. */
  lemma {:induction false} ScoresOfNonEmpty(ss: seq<Session>, t: string)
    ensures |ScoresOf(ss, t)| > 0 <==> exists i :: 0 <= i < |ss| && ss[i].topic == t
  {
    if ss != [] {
      var front := ss[..|ss| - 1];
      ScoresOfNonEmpty(front, t);
      if exists i :: 0 <= i < |ss| && ss[i].topic == t {
        var i :| 0 <= i < |ss| && ss[i].topic == t;
        if i < |ss| - 1 {
          assert front[i].topic == t;
        }
      }
      if exists i :: 0 <= i < |front| && front[i].topic == t {
        var i :| 0 <= i < |front| && front[i].topic == t;
        assert ss[i].topic == t;
      }
    }
  }

  /**
   * The weak topics are exactly the topics with a session (so with scores)
   * whose mean score is below 7; each carries that mean and its number of
   * sessions.
   */
  lemma WeakTopicsExactly(ss: seq<Session>, w: WeakTopic)
    requires ss != []
    ensures var sc := ScoresOf(ss, w.topic);
      w in StatisticsOf(ss).weakTopics <==>
        |sc| > 0 && Mean(sc) < 7.0 && w.averageScore == Mean(sc) && w.attempts == |sc|
  {
    var weak := WeakAmong(ss, TopicOrder(ss));
    var sc := ScoresOf(ss, w.topic);
    assert w in StatisticsOf(ss).weakTopics <==> w in multiset(weak);
    WeakAmongExactly(ss, TopicOrder(ss), w);
    TopicOrderExactly(ss, w.topic);
    ScoresOfNonEmpty(ss, w.topic);
    if |sc| > 0 {
      MeanBelowSeven(sc);
    }
  }

  /** No two entries share a topic. */
  predicate DistinctTopics(ws: seq<WeakTopic>)
  {
    forall i, j :: 0 <= i < j < |ws| ==> ws[i].topic != ws[j].topic
  }

  /** Every entry of the weak list of `order` is on a topic of `order`. */
  lemma {:induction false} WeakAmongTopics(ss: seq<Session>, order: seq<string>)
    ensures forall w :: w in WeakAmong(ss, order) ==> w.topic in order
  {
    if order != [] {
      var front := order[..|order| - 1];
      WeakAmongTopics(ss, front);
      assert forall t :: t in front ==> t in order;
    }
  }

  /** Judging topics that are listed once each gives each weak topic once. */
  lemma {:induction false} WeakAmongDistinct(ss: seq<Session>, order: seq<string>)
    requires forall i, j :: 0 <= i < j < |order| ==> order[i] != order[j]
    ensures DistinctTopics(WeakAmong(ss, order))
  {
    if order != [] {
      var front, last := order[..|order| - 1], order[|order| - 1];
      WeakAmongDistinct(ss, front);
      WeakAmongTopics(ss, front);
      var a, b := WeakAmong(ss, front), WeakEntry(ss, last);
      var c: seq<WeakTopic> := a + b;
      assert last !in front;
      forall i, j | 0 <= i < j < |c| ensures c[i].topic != c[j].topic {
        if j >= |a| && i < |a| {
          assert a[i] in a;
        }
      }
      assert WeakAmong(ss, order) == c;
    }
  }

  /** In a list with distinct topics, every entry occurs at most once. */
  lemma {:induction false} DistinctTopicsOnce(ws: seq<WeakTopic>, w: WeakTopic)
    requires DistinctTopics(ws)
    ensures multiset(ws)[w] <= 1
  {
    if ws != [] {
      var rest := ws[1..];
      assert ws == [ws[0]] + rest;
      DistinctTopicsOnce(rest, w);
    }
  }

  /** An entry at two positions occurs at least twice. */
  lemma TwiceCounted(ws: seq<WeakTopic>, i: nat, j: nat)
    requires i < j < |ws| && ws[i] == ws[j]
    ensures multiset(ws)[ws[i]] >= 2
  {
    assert ws == ws[..j] + ws[j..];
    assert ws[i] in ws[..j];
    assert ws[j] in ws[j..];
  }

  /** Each topic appears at most once among the weak topics, as each is a key of `topic_scores`. */
  lemma WeakTopicsDistinct(ss: seq<Session>)
    ensures DistinctTopics(StatisticsOf(ss).weakTopics)
  {
    if ss != [] {
      var weak := WeakAmong(ss, TopicOrder(ss));
      var r := StatisticsOf(ss).weakTopics;
      WeakAmongDistinct(ss, TopicOrder(ss));
      forall i, j | 0 <= i < j < |r| ensures r[i].topic != r[j].topic {
        if r[i].topic == r[j].topic {
          assert r[i] in multiset(weak) && r[j] in multiset(weak);
          WeakAmongExactly(ss, TopicOrder(ss), r[i]);
          WeakAmongExactly(ss, TopicOrder(ss), r[j]);
          TwiceCounted(r, i, j);
          DistinctTopicsOnce(weak, r[i]);
          assert false;
        }
      }
    }
  }

  /** The weak topics are sorted by mean score, lowest first. */
  lemma WeakTopicsAscending(ss: seq<Session>)
    ensures var r := StatisticsOf(ss).weakTopics;
      forall i, j :: 0 <= i < j < |r| ==> r[i].averageScore <= r[j].averageScore
  {
    var r := StatisticsOf(ss).weakTopics;
    if ss != [] {
      forall i, j | 0 <= i < j < |r| ensures r[i].averageScore <= r[j].averageScore {
        assert NegatedMean(r[i]) >= NegatedMean(r[j]);
      }
    }
  }

  /** The total is the number of sessions and never less than the correct answers. */
  lemma TotalsBound(ss: seq<Session>)
    ensures StatisticsOf(ss).totalQuestions == |ss|
    ensures StatisticsOf(ss).correctAnswers <= StatisticsOf(ss).totalQuestions
  {
  }

  /** A session on `topic` scoring `score`, with every other field fixed. */
  function SampleSession(topic: string, score: int): Session
  {
    Session(0, topic, "", "", "", "", "", score, "", CalculateMastery(score))
  }

  /** Scores 9, 3 and 3 on topics A, B and B. */
  function ExampleSessions(): seq<Session>
  {
    [SampleSession("A", 9), SampleSession("B", 3), SampleSession("B", 3)]
  }

  /** One of the three example sessions is correct, and the scores sum to 15. */
  lemma ExampleTallies()
    ensures CountCorrect(ExampleSessions()) == 1 && ScoreSum(ExampleSessions()) == 15
  {
    var ss := ExampleSessions();
    assert ss[..2][..1][..0] == [];
    assert CountCorrect(ss[..2][..1]) == 1 && AllScores(ss[..2][..1]) == [9];
    assert CountCorrect(ss[..2]) == 1 && AllScores(ss[..2]) == [9, 3];
    assert AllScores(ss) == [9, 3, 3];
    SumSnoc([], 9);
    SumSnoc([9], 3);
    SumSnoc([9, 3], 3);
    assert [9] == [] + [9] && [9, 3] == [9] + [3] && [9, 3, 3] == [9, 3] + [3];
  }

  /** Appending a session extends its topic's scores by its score and leaves the others. */
  lemma ScoresOfSnoc(ss: seq<Session>, s: Session, t: string)
    ensures ScoresOf(ss + [s], t) == ScoresOf(ss, t) + (if s.topic == t then [s.score] else [])
  {
    assert (ss + [s])[..|ss|] == ss;
  }

  /** Appending a session lists its topic at the end unless it is already listed. */
  lemma TopicOrderSnoc(ss: seq<Session>, s: Session)
    ensures TopicOrder(ss + [s]) == if s.topic in TopicOrder(ss) then TopicOrder(ss) else TopicOrder(ss) + [s.topic]
  {
    assert (ss + [s])[..|ss|] == ss;
  }

  /** The example's topics are A then B, with scores [9] and [3, 3]. */
  lemma ExampleTopics()
    ensures TopicOrder(ExampleSessions()) == ["A", "B"]
    ensures ScoresOf(ExampleSessions(), "A") == [9] && ScoresOf(ExampleSessions(), "B") == [3, 3]
  {
    var a, b := SampleSession("A", 9), SampleSession("B", 3);
    assert "A" != "B" by { assert "A"[0] != "B"[0]; }
    assert [a] == [] + [a] && [a, b] == [a] + [b] && ExampleSessions() == [a, b] + [b];
    TopicOrderSnoc([], a);
    TopicOrderSnoc([a], b);
    TopicOrderSnoc([a, b], b);
    ScoresOfSnoc([], a, "A");
    ScoresOfSnoc([a], b, "A");
    ScoresOfSnoc([a, b], b, "A");
    ScoresOfSnoc([], a, "B");
    ScoresOfSnoc([a], b, "B");
    ScoresOfSnoc([a, b], b, "B");
  }

  /** In the example only topic B is weak, with mean 3 over 2 attempts. */
  lemma ExampleWeakTopics()
    ensures WeakAmong(ExampleSessions(), TopicOrder(ExampleSessions())) == [WeakTopic("B", 3.0, 2)]
  {
    var ss := ExampleSessions();
    ExampleTopics();
    assert Sum([9]) == 9 && Sum([3, 3]) == 6 && [3, 3][..1] == [3];
    assert ["A", "B"][..1] == ["A"] && ["A"][..0] == [];
    assert WeakEntry(ss, "A") == [];
    assert WeakEntry(ss, "B") == [WeakTopic("B", 3.0, 2)];
    assert WeakAmong(ss, ["A"]) == [];
  }

  /**
   * The statistics of the example: three questions, one correct, a mean of 5,
   * and B as the only weak topic.
   */
  lemma StatisticsExample()
    ensures StatisticsOf(ExampleSessions()) == Statistics(3, 1, 5.0, [WeakTopic("B", 3.0, 2)])
  {
    var ss := ExampleSessions();
    var w := [WeakTopic("B", 3.0, 2)];
    ExampleTallies();
    ExampleWeakTopics();
    assert w[1..] == [];
    assert SortDescending(WeakAmong(ss, TopicOrder(ss)), NegatedMean) == w;
    assert ScoreSum(ss) as real == 15.0 && |ss| as real == 3.0;
    assert 15.0 / 3.0 == 5.0;
  }

  // ---------------------------------------------------------------- the records

  class LearningRecords {
    const studentName: string
    var sessions: seq<Session>
    var reviewSchedule: seq<ReviewObligation>
    var statistics: Statistics

    /** The schedule is the plan of the recorded sessions, up to completion flags. */
    ghost predicate Valid()
      reads this
    {
      FollowsPlan(reviewSchedule, sessions)
    }

    /** The record file of a first use. */
    constructor (studentName: string)
      ensures Valid()
      ensures this.studentName == studentName
      ensures sessions == [] && reviewSchedule == [] && statistics == InitialStatistics
      ensures statistics == StatisticsOf(sessions)
    {
      this.studentName := studentName;
      sessions := [];
      reviewSchedule := [];
      statistics := InitialStatistics;
    }

    /**
     * Records one answered question at time `now`: one new session at the
     * end, its five obligations at the end of the schedule, fresh statistics.
     */
    method AddQaRecord(topic: string, questionZh: string, questionEn: string, userAnswer: string,
                       correctAnswerZh: string, correctAnswerEn: string, score: int, notes: string, now: Instant)
      requires Valid()
      modifies this
      ensures Valid()
      ensures var s := Session(now, topic, questionZh, questionEn, userAnswer, correctAnswerZh, correctAnswerEn,
                               score, notes, CalculateMastery(score));
        && sessions == old(sessions) + [s]
        && reviewSchedule == old(reviewSchedule) + ObligationsFor(s)
      ensures statistics == StatisticsOf(sessions)
    {
      var record := Session(now, topic, questionZh, questionEn, userAnswer, correctAnswerZh, correctAnswerEn,
                            score, notes, CalculateMastery(score));
      sessions := sessions + [record];
      UpdateStatistics();
      ScheduleReviews(record);
      AppendFollowsPlan(old(reviewSchedule), old(sessions), record);
    }

    /** Appends the obligations of `record`, one per interval of its tier. */
    method ScheduleReviews(record: Session)
      modifies this
      ensures reviewSchedule == old(reviewSchedule) + ObligationsFor(record)
      ensures sessions == old(sessions) && statistics == old(statistics)
    {
      var intervals := Intervals(record.masteryLevel);
      var i := 0;
      while i < |intervals|
        invariant 0 <= i <= |intervals|
        invariant reviewSchedule == old(reviewSchedule) + ObligationsAt(record, intervals[..i])
        invariant sessions == old(sessions) && statistics == old(statistics)
      {
        assert intervals[..i + 1][..i] == intervals[..i];
        reviewSchedule := reviewSchedule + [Obligation(record, intervals[i])];
        i := i + 1;
      }
      assert intervals[..i] == intervals;
    }

    /** Recomputes the statistics from all sessions; with no session nothing changes. */
    method UpdateStatistics()
      modifies this
      ensures sessions == old(sessions) && reviewSchedule == old(reviewSchedule)
      ensures sessions == [] ==> statistics == old(statistics)
      ensures sessions != [] ==> statistics == StatisticsOf(sessions)
    {
      var ss := sessions;
      if ss == [] {
        return;
      }
      var total := |ss|;
      var correct, sum := Tally(ss);
      var order, topicScores := GroupByTopic(ss);
      var weak := JudgeTopics(ss, order, topicScores);
      statistics := Statistics(total, correct, sum as real / total as real, SortDescending(weak, NegatedMean));
    }

    /** The number of sessions scoring at least 7, and the sum of all scores. */
    static method Tally(ss: seq<Session>) returns (correct: nat, sum: int)
      ensures correct == CountCorrect(ss) && sum == ScoreSum(ss)
    {
      correct, sum := 0, 0;
      var i := 0;
      while i < |ss|
        invariant 0 <= i <= |ss|
        invariant correct == CountCorrect(ss[..i]) && sum == ScoreSum(ss[..i])
      {
        TalliesStep(ss, i);
        if ss[i].score >= 7 {
          correct := correct + 1;
        }
        sum := sum + ss[i].score;
        i := i + 1;
      }
      assert ss[..i] == ss;
    }

    /** The `topic_scores` table: each topic's scores, with the topics in order of first appearance. */
    static method GroupByTopic(ss: seq<Session>) returns (order: seq<string>, topicScores: map<string, seq<int>>)
      ensures order == TopicOrder(ss)
      ensures topicScores.Keys == set t | t in order
      ensures forall t :: t in topicScores ==> topicScores[t] == ScoresOf(ss, t)
    {
      topicScores := map[];
      order := [];
      var i := 0;
      while i < |ss|
        invariant 0 <= i <= |ss|
        invariant order == TopicOrder(ss[..i])
        invariant topicScores.Keys == set t | t in order
        invariant forall t :: t in topicScores ==> topicScores[t] == ScoresOf(ss[..i], t)
      {
        GroupStep(ss, i);
        var t := ss[i].topic;
        if t !in topicScores {
          topicScores := topicScores[t := []];
          order := order + [t];
        }
        topicScores := topicScores[t := topicScores[t] + [ss[i].score]];
        i := i + 1;
      }
      assert ss[..i] == ss;
    }

    /** The weak topics among `order`, in that order, from the `topic_scores` table. */
    static method JudgeTopics(ss: seq<Session>, order: seq<string>, topicScores: map<string, seq<int>>)
      returns (weak: seq<WeakTopic>)
      requires forall t :: t in order ==> t in topicScores && topicScores[t] == ScoresOf(ss, t)
      ensures weak == WeakAmong(ss, order)
    {
      weak := [];
      var k := 0;
      while k < |order|
        invariant 0 <= k <= |order|
        invariant weak == WeakAmong(ss, order[..k])
      {
        WeakStep(ss, order, k);
        var t := order[k];
        var scores := topicScores[t];
        if Sum(scores) < 7 * |scores| {
          weak := weak + [WeakTopic(t, Mean(scores), |scores|)];
        }
        k := k + 1;
      }
      assert order[..k] == order;
    }

    /** The open obligations due on or before the day of `asOf`, in stored order. */
    method GetPendingReviews(asOf: Instant) returns (pending: seq<ReviewObligation>)
      ensures pending == PendingAsOf(reviewSchedule, asOf)
    {
      pending := [];
      var i := 0;
      while i < |reviewSchedule|
        invariant 0 <= i <= |reviewSchedule|
        invariant pending == PendingAsOf(reviewSchedule[..i], asOf)
      {
        assert reviewSchedule[..i + 1][..i] == reviewSchedule[..i];
        var review := reviewSchedule[i];
        if IsDue(review, asOf) {
          pending := pending + [review];
        }
        i := i + 1;
      }
      assert reviewSchedule[..i] == reviewSchedule;
    }

    /** Completes the first obligation for question `questionZh` due at `reviewDate`, as the source does. */
    method MarkReviewCompleted(questionZh: string, reviewDate: Instant)
      requires Valid()
      modifies this
      ensures Valid()
      ensures reviewSchedule == MarkFirstMatch(old(reviewSchedule), questionZh, reviewDate)
      ensures sessions == old(sessions) && statistics == old(statistics)
    {
      ghost var k := FirstMatch(reviewSchedule, questionZh, reviewDate);
      var i := 0;
      while i < |reviewSchedule|
        invariant 0 <= i <= k
        invariant reviewSchedule == old(reviewSchedule)
      {
        if reviewSchedule[i].questionZh == questionZh && reviewSchedule[i].reviewDate == reviewDate {
          reviewSchedule := reviewSchedule[i := reviewSchedule[i].(completed := true)];
          break;
        }
        i := i + 1;
      }
      MarkFirstMatchChanges(old(reviewSchedule), questionZh, reviewDate);
      FlagsKeepPlan(old(reviewSchedule), reviewSchedule, sessions);
    }

    /** Completes the first OPEN obligation for the question and date (the corrected behaviour). */
    method MarkPendingReviewCompleted(questionZh: string, reviewDate: Instant)
      requires Valid()
      modifies this
      ensures Valid()
      ensures reviewSchedule == MarkFirstPending(old(reviewSchedule), questionZh, reviewDate)
      ensures sessions == old(sessions) && statistics == old(statistics)
    {
      ghost var k := FirstPendingMatch(reviewSchedule, questionZh, reviewDate);
      var i := 0;
      while i < |reviewSchedule|
        invariant 0 <= i <= k
        invariant reviewSchedule == old(reviewSchedule)
      {
        if reviewSchedule[i].questionZh == questionZh && reviewSchedule[i].reviewDate == reviewDate
           && !reviewSchedule[i].completed {
          reviewSchedule := reviewSchedule[i := reviewSchedule[i].(completed := true)];
          break;
        }
        i := i + 1;
      }
      FlagsKeepPlan(old(reviewSchedule), reviewSchedule, sessions);
    }
  }
}
