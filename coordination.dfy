/**
 * The coordination manager of the three roles (main conversation, Anki
 * review helper, auto-teaching partner): a small state machine with four
 * modes, two pause flags, a shared suppression deadline and two guards that
 * refuse in a fixed priority order.
 *
 * The wall clock is the `now` parameter of every operation that reads it.
 * Each operation of `CoordinationManager` is specified by a pure transition
 * on `CoordState`, the snapshot of all its fields.
 */
module Coordination {
  import opened Options
  import opened Clock

  datatype Mode = Idle | ActiveLearning | Reviewing | AutoTeaching

  datatype CoordState = CoordState(
    mode: Mode,
    learningInProgress: bool,
    activeTopics: seq<string>,
    lastActivity: Option<Instant>,
    suppressUntil: Option<Instant>,
    pauseAutoLearning: bool,
    pauseAutoReview: bool,
    lastMainConversation: Option<Instant>,
    lastAnkiReview: Option<Instant>,
    lastAutoTeaching: Option<Instant>)

  /** The state of a first use. */
  const DefaultState := CoordState(Idle, false, [], None, None, false, false, None, None, None)

  /** Why a guard refuses. */
  datatype Refusal = UserPaused | SuppressedUntil(until: Instant) | LearningActive | TeachingActive | ReviewActive

  datatype Verdict = Allowed | Refused(reason: Refusal)

  /** Active learning is always marked in progress and has a last activity. */
  predicate Consistent(s: CoordState)
  {
    s.mode == ActiveLearning ==> s.learningInProgress && s.lastActivity.Some?
  }

  // ---------------------------------------------------------------- main conversation

  function ActiveLearningStarted(s: CoordState, topics: seq<string>, now: Instant): CoordState
  {
    s.(mode := ActiveLearning, learningInProgress := true, activeTopics := topics,
       lastActivity := Some(now), lastMainConversation := Some(now))
  }

  function ActiveLearningEnded(s: CoordState, now: Instant): CoordState
  {
    s.(mode := Idle, learningInProgress := false, activeTopics := [], lastActivity := Some(now))
  }

  function ActivityUpdated(s: CoordState, now: Instant): CoordState
  {
    s.(lastActivity := Some(now))
  }

  /** No activity was ever recorded, or more than `timeoutMinutes` minutes have passed since it. */
  predicate TimedOut(lastActivity: Option<Instant>, timeoutMinutes: int, now: Instant)
  {
    lastActivity.None? || now - lastActivity.value > timeoutMinutes * SecondsPerMinute
  }

  /** The state after `check_auto_timeout`: active learning ends only on a real timeout while it is in progress. */
  function AfterTimeoutCheck(s: CoordState, timeoutMinutes: int, now: Instant): CoordState
  {
    if s.lastActivity.Some? && TimedOut(s.lastActivity, timeoutMinutes, now) && s.learningInProgress
    then ActiveLearningEnded(s, now)
    else s
  }

  /**
   * The timeout check changes nothing unless it times out on a recorded
   * activity while learning is in progress; a consistent state in active
   * learning that times out goes back to idle.
   */
  lemma TimeoutCheckEffect(s: CoordState, timeoutMinutes: int, now: Instant)
    ensures !TimedOut(s.lastActivity, timeoutMinutes, now) ==> AfterTimeoutCheck(s, timeoutMinutes, now) == s
    ensures s.lastActivity.None? ==> AfterTimeoutCheck(s, timeoutMinutes, now) == s
    ensures !s.learningInProgress ==> AfterTimeoutCheck(s, timeoutMinutes, now) == s
    ensures Consistent(s) && s.mode == ActiveLearning && TimedOut(s.lastActivity, timeoutMinutes, now) ==>
      var r := AfterTimeoutCheck(s, timeoutMinutes, now);
      r.mode == Idle && !r.learningInProgress && r.activeTopics == [] && r.lastActivity == Some(now)
  {
  }

  // ---------------------------------------------------------------- guards

  /** The suppression deadline is set and not yet reached. */
  predicate Suppressed(s: CoordState, now: Instant)
  {
    s.suppressUntil.Some? && now < s.suppressUntil.value
  }

  /** `can_anki_review`: pause flag, then suppression, then active learning, then auto-teaching. */
  function AnkiReviewVerdict(s: CoordState, now: Instant): (v: Verdict)
    ensures v == Refused(UserPaused) <==> s.pauseAutoReview
    ensures v.Refused? && v.reason.SuppressedUntil? <==> !s.pauseAutoReview && Suppressed(s, now)
    ensures v.Refused? && v.reason.SuppressedUntil? ==> Some(v.reason.until) == s.suppressUntil
    ensures v == Refused(LearningActive) <==> !s.pauseAutoReview && !Suppressed(s, now) && s.mode == ActiveLearning
    ensures v == Refused(TeachingActive) <==> !s.pauseAutoReview && !Suppressed(s, now) && s.mode == AutoTeaching
    ensures v == Allowed <==> !s.pauseAutoReview && !Suppressed(s, now) && s.mode != ActiveLearning && s.mode != AutoTeaching
  {
    if s.pauseAutoReview then Refused(UserPaused)
    else if Suppressed(s, now) then Refused(SuppressedUntil(s.suppressUntil.value))
    else if s.mode == ActiveLearning then Refused(LearningActive)
    else if s.mode == AutoTeaching then Refused(TeachingActive)
    else Allowed
  }

  /** `can_auto_teach`: pause flag, then suppression, then active learning, then reviewing. */
  function AutoTeachVerdict(s: CoordState, now: Instant): (v: Verdict)
    ensures v == Refused(UserPaused) <==> s.pauseAutoLearning
    ensures v.Refused? && v.reason.SuppressedUntil? <==> !s.pauseAutoLearning && Suppressed(s, now)
    ensures v.Refused? && v.reason.SuppressedUntil? ==> Some(v.reason.until) == s.suppressUntil
    ensures v == Refused(LearningActive) <==> !s.pauseAutoLearning && !Suppressed(s, now) && s.mode == ActiveLearning
    ensures v == Refused(ReviewActive) <==> !s.pauseAutoLearning && !Suppressed(s, now) && s.mode == Reviewing
    ensures v == Allowed <==> !s.pauseAutoLearning && !Suppressed(s, now) && s.mode != ActiveLearning && s.mode != Reviewing
  {
    if s.pauseAutoLearning then Refused(UserPaused)
    else if Suppressed(s, now) then Refused(SuppressedUntil(s.suppressUntil.value))
    else if s.mode == ActiveLearning then Refused(LearningActive)
    else if s.mode == Reviewing then Refused(ReviewActive)
    else Allowed
  }

  /** The main conversation has priority: neither guard allows anything during active learning. */
  lemma NoAutomationDuringActiveLearning(s: CoordState, now: Instant)
    requires s.mode == ActiveLearning
    ensures AnkiReviewVerdict(s, now).Refused? && AutoTeachVerdict(s, now).Refused?
  {
  }

  /** The two automatic roles exclude each other: each guard refuses while the other role runs. */
  lemma ReviewAndTeachingExclusive(s: CoordState, now: Instant)
    ensures s.mode == Reviewing ==> AutoTeachVerdict(s, now).Refused?
    ensures s.mode == AutoTeaching ==> AnkiReviewVerdict(s, now).Refused?
  {
  }

  /** The state after a guard: the timeout check runs (with 30 minutes) only when the guard allows. */
  function AfterGuard(s: CoordState, v: Verdict, now: Instant): CoordState
  {
    if v == Allowed then AfterTimeoutCheck(s, 30, now) else s
  }

  // ---------------------------------------------------------------- review and teaching

  function AnkiReviewStarted(s: CoordState, now: Instant): CoordState
  {
    s.(mode := Reviewing, lastAnkiReview := Some(now))
  }

  function AnkiReviewEnded(s: CoordState): CoordState
  {
    s.(mode := Idle)
  }

  function AutoTeachingStarted(s: CoordState, topic: string, now: Instant): CoordState
  {
    s.(mode := AutoTeaching, activeTopics := [topic], lastAutoTeaching := Some(now))
  }

  function AutoTeachingEnded(s: CoordState): CoordState
  {
    s.(mode := Idle, activeTopics := [])
  }

  // ---------------------------------------------------------------- user control

  /** The suppression deadline after a pause of `hours` (absent or zero hours leave it as it was). */
  function SuppressionAfterPause(s: CoordState, hours: Option<int>, now: Instant): Option<Instant>
  {
    if hours.Some? && hours.value != 0 then Some(AddHours(now, hours.value)) else s.suppressUntil
  }

  function AutoLearningPaused(s: CoordState, hours: Option<int>, now: Instant): CoordState
  {
    s.(pauseAutoLearning := true, suppressUntil := SuppressionAfterPause(s, hours, now))
  }

  function AutoLearningResumed(s: CoordState): CoordState
  {
    s.(pauseAutoLearning := false, suppressUntil := None)
  }

  function AutoReviewPaused(s: CoordState, hours: Option<int>, now: Instant): CoordState
  {
    s.(pauseAutoReview := true, suppressUntil := SuppressionAfterPause(s, hours, now))
  }

  function AutoReviewResumed(s: CoordState): CoordState
  {
    s.(pauseAutoReview := false, suppressUntil := None)
  }

  /** A paused role is refused, whenever it asks, until it is resumed. */
  lemma PauseRefuses(s: CoordState, hours: Option<int>, now: Instant, later: Instant)
    ensures AnkiReviewVerdict(AutoReviewPaused(s, hours, now), later) == Refused(UserPaused)
    ensures AutoTeachVerdict(AutoLearningPaused(s, hours, now), later) == Refused(UserPaused)
  {
  }

  /**
   * The suppression deadline is shared: pausing either role for a positive
   * number of hours makes the OTHER role's guard refuse until then too, unless
   * that role is paused itself.
   */
  lemma PauseSuppressesBoth(s: CoordState, h: int, now: Instant, later: Instant)
    requires h > 0 && now <= later < AddHours(now, h)
    ensures !s.pauseAutoLearning ==>
      AutoTeachVerdict(AutoReviewPaused(s, Some(h), now), later) == Refused(SuppressedUntil(AddHours(now, h)))
    ensures !s.pauseAutoReview ==>
      AnkiReviewVerdict(AutoLearningPaused(s, Some(h), now), later) == Refused(SuppressedUntil(AddHours(now, h)))
  {
  }

  /** After resuming, a role is refused only because of the current mode. */
  lemma ResumeLiftsPauseAndSuppression(s: CoordState, now: Instant)
    ensures AnkiReviewVerdict(AutoReviewResumed(s), now)
         == (if s.mode == ActiveLearning then Refused(LearningActive)
             else if s.mode == AutoTeaching then Refused(TeachingActive) else Allowed)
    ensures AutoTeachVerdict(AutoLearningResumed(s), now)
         == (if s.mode == ActiveLearning then Refused(LearningActive)
             else if s.mode == Reviewing then Refused(ReviewActive) else Allowed)
  {
  }

  /** Every transition keeps active learning marked in progress with a recorded activity. */
  lemma TransitionsKeepConsistent(s: CoordState, topics: seq<string>, topic: string, hours: Option<int>, m: int, now: Instant)
    requires Consistent(s)
    ensures Consistent(ActiveLearningStarted(s, topics, now))
    ensures Consistent(ActiveLearningEnded(s, now))
    ensures Consistent(ActivityUpdated(s, now))
    ensures Consistent(AfterTimeoutCheck(s, m, now))
    ensures Consistent(AfterGuard(s, AnkiReviewVerdict(s, now), now))
    ensures Consistent(AfterGuard(s, AutoTeachVerdict(s, now), now))
    ensures Consistent(AnkiReviewStarted(s, now)) && Consistent(AnkiReviewEnded(s))
    ensures Consistent(AutoTeachingStarted(s, topic, now)) && Consistent(AutoTeachingEnded(s))
    ensures Consistent(AutoLearningPaused(s, hours, now)) && Consistent(AutoLearningResumed(s))
    ensures Consistent(AutoReviewPaused(s, hours, now)) && Consistent(AutoReviewResumed(s))
  {
  }

  // ---------------------------------------------------------------- the manager

  class CoordinationManager {
    var mode: Mode
    var learningInProgress: bool
    var activeTopics: seq<string>
    var lastActivity: Option<Instant>
    var suppressUntil: Option<Instant>
    var pauseAutoLearning: bool
    var pauseAutoReview: bool
    var lastMainConversation: Option<Instant>
    var lastAnkiReview: Option<Instant>
    var lastAutoTeaching: Option<Instant>

    /** All fields, as one value. */
    function State(): CoordState
      reads this
    {
      CoordState(mode, learningInProgress, activeTopics, lastActivity, suppressUntil,
                 pauseAutoLearning, pauseAutoReview, lastMainConversation, lastAnkiReview, lastAutoTeaching)
    }

    ghost predicate Valid()
      reads this
    {
      Consistent(State())
    }

    /** The default state of a first use. */
    constructor ()
      ensures Valid() && State() == DefaultState
    {
      mode := Idle;
      learningInProgress := false;
      activeTopics := [];
      lastActivity := None;
      suppressUntil := None;
      pauseAutoLearning := false;
      pauseAutoReview := false;
      lastMainConversation := None;
      lastAnkiReview := None;
      lastAutoTeaching := None;
    }

    method StartActiveLearning(topics: seq<string>, now: Instant)
      requires Valid()
      modifies this
      ensures Valid() && State() == ActiveLearningStarted(old(State()), topics, now)
    {
      mode := ActiveLearning;
      learningInProgress := true;
      activeTopics := topics;
      lastActivity := Some(now);
      lastMainConversation := Some(now);
    }

    method EndActiveLearning(now: Instant)
      requires Valid()
      modifies this
      ensures Valid() && State() == ActiveLearningEnded(old(State()), now)
    {
      mode := Idle;
      learningInProgress := false;
      activeTopics := [];
      lastActivity := Some(now);
    }

    method UpdateActivity(now: Instant)
      requires Valid()
      modifies this
      ensures Valid() && State() == ActivityUpdated(old(State()), now)
    {
      lastActivity := Some(now);
    }

    method CheckAutoTimeout(timeoutMinutes: int, now: Instant) returns (timedOut: bool)
      requires Valid()
      modifies this
      ensures Valid() && State() == AfterTimeoutCheck(old(State()), timeoutMinutes, now)
      ensures timedOut == TimedOut(old(lastActivity), timeoutMinutes, now)
    {
      if lastActivity.None? {
        return true;
      }
      if now - lastActivity.value > timeoutMinutes * 60 {
        if learningInProgress {
          EndActiveLearning(now);
        }
        return true;
      }
      return false;
    }

    method CanAnkiReview(now: Instant) returns (verdict: Verdict)
      requires Valid()
      modifies this
      ensures Valid()
      ensures verdict == AnkiReviewVerdict(old(State()), now)
      ensures State() == AfterGuard(old(State()), verdict, now)
    {
      if pauseAutoReview {
        return Refused(UserPaused);
      }
      if suppressUntil.Some? {
        if now < suppressUntil.value {
          return Refused(SuppressedUntil(suppressUntil.value));
        }
      }
      if mode == ActiveLearning {
        return Refused(LearningActive);
      } else if mode == AutoTeaching {
        return Refused(TeachingActive);
      }
      var _ := CheckAutoTimeout(30, now);
      return Allowed;
    }

    method StartAnkiReview(now: Instant)
      requires Valid()
      modifies this
      ensures Valid() && State() == AnkiReviewStarted(old(State()), now)
    {
      mode := Reviewing;
      lastAnkiReview := Some(now);
    }

    method EndAnkiReview()
      requires Valid()
      modifies this
      ensures Valid() && State() == AnkiReviewEnded(old(State()))
    {
      mode := Idle;
    }

    method CanAutoTeach(now: Instant) returns (verdict: Verdict)
      requires Valid()
      modifies this
      ensures Valid()
      ensures verdict == AutoTeachVerdict(old(State()), now)
      ensures State() == AfterGuard(old(State()), verdict, now)
    {
      if pauseAutoLearning {
        return Refused(UserPaused);
      }
      if suppressUntil.Some? {
        if now < suppressUntil.value {
          return Refused(SuppressedUntil(suppressUntil.value));
        }
      }
      if mode == ActiveLearning {
        return Refused(LearningActive);
      } else if mode == Reviewing {
        return Refused(ReviewActive);
      }
      var _ := CheckAutoTimeout(30, now);
      return Allowed;
    }

    method StartAutoTeaching(topic: string, now: Instant)
      requires Valid()
      modifies this
      ensures Valid() && State() == AutoTeachingStarted(old(State()), topic, now)
    {
      mode := AutoTeaching;
      activeTopics := [topic];
      lastAutoTeaching := Some(now);
    }

    method EndAutoTeaching()
      requires Valid()
      modifies this
      ensures Valid() && State() == AutoTeachingEnded(old(State()))
    {
      mode := Idle;
      activeTopics := [];
    }

    method PauseAutoLearning(durationHours: Option<int>, now: Instant)
      requires Valid()
      modifies this
      ensures Valid() && State() == AutoLearningPaused(old(State()), durationHours, now)
    {
      pauseAutoLearning := true;
      if durationHours.Some? && durationHours.value != 0 {
        suppressUntil := Some(AddHours(now, durationHours.value));
      }
    }

    method ResumeAutoLearning()
      requires Valid()
      modifies this
      ensures Valid() && State() == AutoLearningResumed(old(State()))
    {
      pauseAutoLearning := false;
      suppressUntil := None;
    }

    method PauseAutoReview(durationHours: Option<int>, now: Instant)
      requires Valid()
      modifies this
      ensures Valid() && State() == AutoReviewPaused(old(State()), durationHours, now)
    {
      pauseAutoReview := true;
      if durationHours.Some? && durationHours.value != 0 {
        suppressUntil := Some(AddHours(now, durationHours.value));
      }
    }

    method ResumeAutoReview()
      requires Valid()
      modifies this
      ensures Valid() && State() == AutoReviewResumed(old(State()))
    {
      pauseAutoReview := false;
      suppressUntil := None;
    }
  }
}
