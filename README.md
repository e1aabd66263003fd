# Learning companion core, in Dafny

This project models the three components of the learning companion skill that hold its logic. Each is proved against a specification.

- **Smart knowledge base** (`skills/learning_companion/smart_knowledge_base.py`). Questions are stored per topic. The keyword extractor takes the CJK Unified Ideographs (U+4E00 to U+9FFF) of the lower-cased text. It emits their 1-, 2- and 3-character windows and drops stop words from the 1-character windows only. Similarity is the Jaccard index of two keyword sets. A threshold search returns the similar questions of a topic, sorted stably with the highest score first. `add_question` is a three-way gate: `ADDED`, `EXACT_DUPLICATE` or `SIMILAR_FOUND`. There is also a case-insensitive substring search over all questions and answers.
- **Learning records** (`skills/learning_companion/learning_records.py`). A score sets a mastery tier (excellent, good, fair, poor). Every answered question becomes a session and schedules five review obligations from its tier's interval table. Each new session triggers a full recomputation of the statistics. Pending reviews are the open obligations due on or before a given day. `mark_review_completed` flips the flag of the first obligation that matches a question and a date.
- **Coordination manager** (`skills/learning_companion/coordination_manager.py`). This is a state machine with four modes: idle, active learning, reviewing and auto-teaching. It also has two pause flags and a shared suppression deadline. Two guards, one for the Anki review helper and one for the auto-teaching partner, refuse for a fixed list of reasons in priority order. They run a 30-minute inactivity timeout only when they allow.

## Modules

- `Clock` (clock.dfy): time is a whole number of seconds. `DayOf` gives the calendar day, `AddDays` and `AddHours` give `timedelta` arithmetic.
- `Keywords` (keywords.dfy): the keyword extractor.
- `Similarity` (similarity.dfy): the Jaccard index as an exact rational.
- `Ratios` (ratios.dfy): two facts about fractions.
- `StableSort` (stable_sort.dfy): Python's `list.sort(key=..., reverse=True)` as a stable insertion sort on a real key.
- `KnowledgeBase` (knowledge_base.dfy): the class `SmartKnowledgeBase`, whose `topics` map and `topicOrder` sequence its methods update.
- `LearningRecords` (learning_records.dfy): the class `LearningRecords`, with its `sessions`, `reviewSchedule` and `statistics` fields.
- `Coordination` (coordination.dfy): the class `CoordinationManager`. Each method is specified by a pure transition function on the snapshot `CoordState`.
- `Options` (options.dfy): the Option type.

How the model represents the source:

- The MD5 topic id and question digest are deterministic functions that the knowledge base receives at construction (`topicIdOf`, `questionHashOf`).
- The topic map keeps its insertion order in `topicOrder`, as a Python dictionary does.
- `datetime.now()` becomes a `now` parameter.
- A mode is a value of the enumeration `Mode`, so every transition stays within the four declared states (coordination_manager.py:27-30) by construction.

## Model

| member | source | states |
|---|---|---|
| Clock.DayOf | skills/learning_companion/learning_records.py:200 | `.date()`: the day of an instant is the floor of its seconds over 86400, so the instant falls within that day |
| Clock.AddDays | skills/learning_companion/learning_records.py:133 | `timestamp + timedelta(days=k)` falls k calendar days later, at the same time of day |
| Clock.AddHours | skills/learning_companion/coordination_manager.py:233 | `now + timedelta(hours=h)` is later than now for positive h and earlier for negative h |
| Keywords.LowerChar | skills/learning_companion/smart_knowledge_base.py:52 | ASCII capitals map to lower-case letters; every other character is unchanged |
| Keywords.Lower | skills/learning_companion/smart_knowledge_base.py:52 | the model's lowering keeps the length of the text (Python's full `str.lower()` need not, see Left out) |
| Keywords.LowerEach | skills/learning_companion/smart_knowledge_base.py:52 | lower-casing works character by character, in place |
| Keywords.Ideographs | skills/learning_companion/smart_knowledge_base.py:63 | the filtered `chars` list is no longer than the text |
| Keywords.OnlyIdeographs | skills/learning_companion/smart_knowledge_base.py:63 | every kept character lies in U+4E00..U+9FFF |
| Keywords.LowerKeepsIdeographs | skills/learning_companion/smart_knowledge_base.py:52-63 | lower-casing before filtering does not change the filtered characters |
| Keywords.Window | skills/learning_companion/smart_knowledge_base.py:71-78 | the window `chars[i] + ... + chars[i+n-1]` has exactly n characters |
| Keywords.InGrams | skills/learning_companion/smart_knowledge_base.py:66-78 | the n-gram pass yields exactly the contiguous windows of length n of `chars` |
| Keywords.ExtractKeywords | skills/learning_companion/smart_knowledge_base.py:39-80 | `extract_keywords`: the non-stop-word 1-grams and all 2- and 3-grams of the ideographs of the lower-cased text; characterised in both directions by `KeywordsExactly`, and bounded by `KeywordShape` and `EmptyKeywordsExactly` |
| Keywords.KeywordsExactly | skills/learning_companion/smart_knowledge_base.py:51-80 | w is a keyword iff it is a window of 1 to 3 ideographs of the text and, when it has length 1, not a stop word (both directions) |
| Keywords.KeywordShape | skills/learning_companion/smart_knowledge_base.py:55-68 | every keyword has length 1, 2 or 3, consists of ideographs only, and is not a stop word when it has length 1 |
| Keywords.NoIdeographsFiltered | skills/learning_companion/smart_knowledge_base.py:63 | text without ideographs filters to the empty list |
| Keywords.NoIdeographsNoKeywords | skills/learning_companion/smart_knowledge_base.py:63-80 | text without ideographs has no keywords |
| Keywords.EmptyKeywordsExactly | skills/learning_companion/smart_knowledge_base.py:60-80 | the keyword set is empty iff the text has no ideograph, or a single ideograph that is a stop word |
| Keywords.TwoCharacterStopWordsKept | skills/learning_companion/smart_knowledge_base.py:66-73 | two-character stop words such as 什么 are never removed: each occurrence is a keyword |
| Similarity.IntersectionWithinUnion | skills/learning_companion/smart_knowledge_base.py:96-97 | the intersection is no larger than the union, and strictly smaller when the sets differ |
| Similarity.Jaccard | skills/learning_companion/smart_knowledge_base.py:93-99 | the score lies in [0, 1] and is 0 when either set is empty |
| Similarity.JaccardSymmetric | skills/learning_companion/smart_knowledge_base.py:93-99 | the score does not depend on argument order |
| Similarity.JaccardSelf | skills/learning_companion/smart_knowledge_base.py:93-99 | a non-empty set scores 1 against itself |
| Similarity.JaccardOneExactly | skills/learning_companion/smart_knowledge_base.py:93-99 | two non-empty sets score 1 iff they are equal |
| Similarity.AtDefaultThreshold | skills/learning_companion/smart_knowledge_base.py:125-127 | at threshold 0.6, "similar" is the integer test 5·\|A∩B\| ≥ 3·\|A∪B\| on non-empty sets, and never holds for an empty set |
| StableSort.SortDescending | skills/learning_companion/smart_knowledge_base.py:135 | the sorted list is non-increasing in the key and a permutation of the input |
| StableSort.SortDescendingStable | skills/learning_companion/smart_knowledge_base.py:135 | entries with equal keys keep their input order |
| KnowledgeBase.AppendKeepsHashesUnique | skills/learning_companion/smart_knowledge_base.py:181-205 | appending a question whose digest is not stored keeps the digests of the topic unique |
| KnowledgeBase.Scored | skills/learning_companion/smart_knowledge_base.py:122-132 | the entry of one stored question: its text, its Jaccard score against the new question's keywords, and its digest; used by `CandidatesExactly` and `FindSimilarSound` |
| KnowledgeBase.Candidates | skills/learning_companion/smart_knowledge_base.py:121-132 | the accumulated matches in stored order; `CandidatesExactly` shows they are exactly the scored questions at or above the threshold |
| KnowledgeBase.FindSimilar | skills/learning_companion/smart_knowledge_base.py:113-136 | `find_similar_questions`: [] for an unknown topic, otherwise the candidates sorted by similarity; characterised by `FindSimilarSound`, `FindSimilarComplete` and `FindSimilarOrdered` |
| KnowledgeBase.CandidatesExactly | skills/learning_companion/smart_knowledge_base.py:121-132 | the unsorted matches are exactly the scored stored questions at or above the threshold (both directions) |
| KnowledgeBase.FindSimilarFreshTopic | skills/learning_companion/smart_knowledge_base.py:115-116 | an unknown topic, or one `add_question` has just created, has no similar questions |
| KnowledgeBase.FindSimilarSound | skills/learning_companion/smart_knowledge_base.py:113-136 | every match belongs to a known topic, comes from one of its stored questions and scores at least the threshold (inclusive) |
| KnowledgeBase.FindSimilarComplete | skills/learning_companion/smart_knowledge_base.py:121-132 | every stored question of the topic that reaches the threshold is among the matches |
| KnowledgeBase.FindSimilarOrdered | skills/learning_companion/smart_knowledge_base.py:134-135 | the matches are non-increasing in similarity; ties keep stored order |
| KnowledgeBase.Contains | skills/learning_companion/smart_knowledge_base.py:256-259 | `needle in hay` holds iff the needle occurs in the hay as a contiguous window |
| KnowledgeBase.Mentions | skills/learning_companion/smart_knowledge_base.py:256-259 | the case-insensitive test on the four texts of a question; `SearchSound` and `SearchComplete` show the hits are exactly the questions it accepts |
| KnowledgeBase.TopicHits | skills/learning_companion/smart_knowledge_base.py:255-267 | the hits of one topic are exactly its questions that mention the keyword |
| KnowledgeBase.AllHits | skills/learning_companion/smart_knowledge_base.py:253-268 | the hits of all topics, topic by topic in insertion order; characterised by `SearchSound` and `SearchComplete` |
| KnowledgeBase.SearchSound | skills/learning_companion/smart_knowledge_base.py:253-268 | every search hit is a stored question, under a stored topic, that mentions the keyword |
| KnowledgeBase.SearchComplete | skills/learning_companion/smart_knowledge_base.py:253-268 | every stored question that mentions the keyword is a search hit |
| KnowledgeBase.AddKeepsWellFormed | skills/learning_companion/smart_knowledge_base.py:173-205 | adding a question whose digest is new under its topic keeps topic ids listed once and digests unique |
| KnowledgeBase.SmartKnowledgeBase.constructor | skills/learning_companion/smart_knowledge_base.py:32 | the knowledge base of a first use has no topics |
| KnowledgeBase.SmartKnowledgeBase.FindSimilarQuestions | skills/learning_companion/smart_knowledge_base.py:101-136 | the scan-and-sort loop returns the sorted matches; an unknown topic returns [] |
| KnowledgeBase.SmartKnowledgeBase.AddQuestion | skills/learning_companion/smart_knowledge_base.py:169-208 | EXACT_DUPLICATE iff the digest is stored, whatever `force` is; SIMILAR_FOUND iff not a duplicate, not forced and the similar list is non-empty, carrying that list; nothing changes unless ADDED; on ADDED one new entry (no reviews, no last review, tags or []) ends the topic's list, created if needed; digests stay unique |
| KnowledgeBase.SmartKnowledgeBase.ContainsHash | skills/learning_companion/smart_knowledge_base.py:181-183 | the duplicate scan finds the digest iff some stored question has it |
| KnowledgeBase.SmartKnowledgeBase.GetTopicQuestions | skills/learning_companion/smart_knowledge_base.py:220-224 | the questions of a known topic; [] for an unknown one |
| KnowledgeBase.SmartKnowledgeBase.ListTopics | skills/learning_companion/smart_knowledge_base.py:233-241 | one summary per topic in insertion order, with `question_count` equal to the length of its list |
| KnowledgeBase.SmartKnowledgeBase.SearchQuestions | skills/learning_companion/smart_knowledge_base.py:253-268 | the nested loop returns the hits of all topics, topic by topic in insertion order |
| LearningRecords.CalculateMastery | skills/learning_companion/learning_records.py:102-109 | total: excellent iff ≥9, good iff 7..8, fair iff 5..6, poor iff <5 (lower bounds inclusive) |
| LearningRecords.MasteryMonotone | skills/learning_companion/learning_records.py:102-109 | a higher score never gives a lower tier |
| LearningRecords.Intervals | skills/learning_companion/learning_records.py:123-130 | every table has five non-decreasing intervals starting at 1 day |
| LearningRecords.IntervalsRepeatOnlyForPoor | skills/learning_companion/learning_records.py:123-130 | only the poor table repeats an interval (its first); the others strictly increase |
| LearningRecords.ObligationsAt | skills/learning_companion/learning_records.py:132-143 | one obligation per interval, in interval order |
| LearningRecords.ObligationsFor | skills/learning_companion/learning_records.py:119-143 | the five obligations `_schedule_reviews` appends for a session; characterised by `ObligationsForShape` and `PoorSessionTwins` |
| LearningRecords.ObligationsForShape | skills/learning_companion/learning_records.py:119-143 | five obligations; each is open, due its interval's number of days after the session at the same time of day, and copies topic, both question texts and tier |
| LearningRecords.PoorSessionTwins | skills/learning_companion/learning_records.py:129-143 | a poor session gets two identical obligations (same question, same date); for other tiers the dates strictly increase |
| LearningRecords.Plan | skills/learning_companion/learning_records.py:87-89 | the planned schedule has five obligations per session |
| LearningRecords.AppendFollowsPlan | skills/learning_companion/learning_records.py:87-89 | appending a session and its five obligations keeps the schedule equal to the plan of the sessions, up to completion flags |
| LearningRecords.FlagsKeepPlan | skills/learning_companion/learning_records.py:213-217 | changing completion flags only keeps the schedule on plan |
| LearningRecords.PendingAsOf | skills/learning_companion/learning_records.py:196-203 | the pending list is no longer than the schedule |
| LearningRecords.IsDue | skills/learning_companion/learning_records.py:198-200 | the pending test: open, and due on or before the day of the query; `PendingExactly` shows the pending list holds exactly the obligations passing it |
| LearningRecords.PendingExactly | skills/learning_companion/learning_records.py:196-203 | an obligation is pending iff it is scheduled, open, and due on or before the day of the query |
| LearningRecords.FirstMatch | skills/learning_companion/learning_records.py:213-215 | the index of the first obligation with the question and date; none before it matches |
| LearningRecords.MarkFirstMatch | skills/learning_companion/learning_records.py:213-217 | completion as written keeps the schedule's length |
| LearningRecords.MarkFirstMatchChanges | skills/learning_companion/learning_records.py:213-217 | no-op when nothing matches; no flag is ever cleared; only the first match can change, and it ends completed |
| LearningRecords.MarkFirstMatchIdempotent | skills/learning_companion/learning_records.py:213-217 | marking the same question and date twice equals marking it once |
| LearningRecords.PoorTwinNeverCompleted | skills/learning_companion/learning_records.py:213-217 | as written, the second of a poor session's twin obligations stays open however often the first is marked |
| LearningRecords.FirstPendingMatch | skills/learning_companion/learning_records.py:213-215 | the index of the first open obligation with the question and date |
| LearningRecords.MarkFirstPending | skills/learning_companion/learning_records.py:213-217 | the corrected completion keeps the schedule's length |
| LearningRecords.MarkFirstPendingCloses | skills/learning_companion/learning_records.py:213-217 | the corrected completion closes exactly one open match while one exists, and changes nothing otherwise |
| LearningRecords.PoorTwinsBothCompleted | skills/learning_companion/learning_records.py:213-217 | with the corrected completion, two marks close both twins of a poor session |
| LearningRecords.CountCorrect | skills/learning_companion/learning_records.py:153 | the correct answers never outnumber the sessions |
| LearningRecords.ScoreSum | skills/learning_companion/learning_records.py:154 | the sum of all session scores, the numerator of `average_score`; `ExampleTallies` computes it for the scores 9, 3, 3 |
| LearningRecords.MeanBelowSeven | skills/learning_companion/learning_records.py:166-167 | a mean below 7 is the integer test sum < 7·count |
| LearningRecords.TopicOrder | skills/learning_companion/learning_records.py:157-162 | the `topic_scores` keys list each topic once |
| LearningRecords.TopicOrderExactly | skills/learning_companion/learning_records.py:157-162 | a topic is a key of `topic_scores` iff it has scores |
| LearningRecords.ScoresOfNonEmpty | skills/learning_companion/learning_records.py:157-162 | a topic has scores iff some session is on it |
| LearningRecords.WeakAmongExactly | skills/learning_companion/learning_records.py:164-172 | the weak list holds exactly the listed topics with a mean below 7, each with its mean and number of attempts |
| LearningRecords.WeakAmong | skills/learning_companion/learning_records.py:164-172 | the weak-topic loop over the `topic_scores` keys; characterised by `WeakAmongExactly` |
| LearningRecords.WeakTopicsExactly | skills/learning_companion/learning_records.py:164-172 | a weak topic appears iff it has sessions, its mean is below 7, its average is that mean and its attempts are its session count |
| LearningRecords.WeakAmongTopics | skills/learning_companion/learning_records.py:164-172 | every weak entry is on one of the judged topics |
| LearningRecords.WeakAmongDistinct | skills/learning_companion/learning_records.py:164-172 | judging the distinct `topic_scores` keys gives each weak topic at most once |
| LearningRecords.WeakTopicsDistinct | skills/learning_companion/learning_records.py:157-174 | no topic appears twice among the weak topics, as each comes from one key of `topic_scores`, and sorting keeps that |
| LearningRecords.WeakTopicsAscending | skills/learning_companion/learning_records.py:174 | the weak topics are sorted by average, lowest first |
| LearningRecords.TotalsBound | skills/learning_companion/learning_records.py:152-153 | the total is the number of sessions and at least the number correct |
| LearningRecords.StatisticsOf | skills/learning_companion/learning_records.py:145-181 | the statistics `_update_statistics` computes from all sessions; characterised by `TotalsBound`, `WeakTopicsExactly`, `WeakTopicsDistinct`, `WeakTopicsAscending` and `StatisticsExample` |
| LearningRecords.ExampleTallies | skills/learning_companion/learning_records.py:152-154 | for scores 9, 3, 3: one correct answer and a score sum of 15 |
| LearningRecords.ExampleTopics | skills/learning_companion/learning_records.py:157-162 | for sessions on A, B, B: topics A then B, with scores [9] and [3, 3] |
| LearningRecords.ExampleWeakTopics | skills/learning_companion/learning_records.py:164-172 | in that example only B is weak, with mean 3 over 2 attempts |
| LearningRecords.StatisticsExample | skills/learning_companion/learning_records.py:152-181 | that example's statistics are 3 questions, 1 correct, mean 5, weak topics [B] |
| LearningRecords.LearningRecords.constructor | skills/learning_companion/learning_records.py:32-43 | a new record file has no sessions, no schedule and zero statistics |
| LearningRecords.LearningRecords.AddQaRecord | skills/learning_companion/learning_records.py:74-90 | exactly one session is appended, with tier `CalculateMastery(score)`; the schedule grows by that session's five obligations; earlier entries are unchanged; the statistics are those of all sessions; the schedule stays on plan |
| LearningRecords.LearningRecords.ScheduleReviews | skills/learning_companion/learning_records.py:119-143 | the loop appends the session's obligations in interval order and changes nothing else |
| LearningRecords.LearningRecords.UpdateStatistics | skills/learning_companion/learning_records.py:145-181 | the statistics become those of the sessions; with no session they stay as they were |
| LearningRecords.LearningRecords.Tally | skills/learning_companion/learning_records.py:152-154 | the loop counts the scores of at least 7 and sums all scores |
| LearningRecords.LearningRecords.GroupByTopic | skills/learning_companion/learning_records.py:157-162 | the `topic_scores` table maps each topic, in order of first appearance, to its scores |
| LearningRecords.LearningRecords.JudgeTopics | skills/learning_companion/learning_records.py:164-172 | the loop keeps, in table order, the topics whose mean is below 7 |
| LearningRecords.LearningRecords.GetPendingReviews | skills/learning_companion/learning_records.py:196-203 | the loop returns the due open obligations in stored order and changes nothing |
| LearningRecords.LearningRecords.MarkReviewCompleted | skills/learning_companion/learning_records.py:213-217 | the loop completes the first match and stops, as written; the schedule stays on plan; sessions and statistics are unchanged |
| LearningRecords.LearningRecords.MarkPendingReviewCompleted | skills/learning_companion/learning_records.py:213-217 | corrected version: completes the first open match; the schedule stays on plan |
| Coordination.TimeoutCheckEffect | skills/learning_companion/coordination_manager.py:115-127 | no state change without a timeout, without a recorded activity, or with no learning in progress; a timed-out active learning returns to idle with no topics |
| Coordination.AfterTimeoutCheck | skills/learning_companion/coordination_manager.py:115-127 | the state after `check_auto_timeout`; characterised by `TimeoutCheckEffect` |
| Coordination.AnkiReviewVerdict | skills/learning_companion/coordination_manager.py:141-160 | refused for: pause, then suppression deadline not reached, then active learning, then auto-teaching; otherwise allowed (every case both directions) |
| Coordination.AutoTeachVerdict | skills/learning_companion/coordination_manager.py:185-204 | refused for: pause, then suppression deadline not reached, then active learning, then reviewing; otherwise allowed (every case both directions) |
| Coordination.NoAutomationDuringActiveLearning | skills/learning_companion/coordination_manager.py:150-155 | neither guard allows during active learning (also lines 194-199) |
| Coordination.ReviewAndTeachingExclusive | skills/learning_companion/coordination_manager.py:194-199 | the teaching guard refuses while reviewing and the review guard refuses while teaching (also lines 150-155) |
| Coordination.AfterGuard | skills/learning_companion/coordination_manager.py:157-160 | the state after a guard: the 30-minute timeout check runs only when the guard allows; kept consistent by `TransitionsKeepConsistent` |
| Coordination.PauseRefuses | skills/learning_companion/coordination_manager.py:230-262 | after a pause the paused role's guard refuses for the pause, whatever the time |
| Coordination.PauseSuppressesBoth | skills/learning_companion/coordination_manager.py:232-259 | `suppress_until` is shared: pausing one role for h > 0 hours suppresses the other until then |
| Coordination.ResumeLiftsPauseAndSuppression | skills/learning_companion/coordination_manager.py:241-271 | after a resume the role's guard refuses only because of the current mode |
| Coordination.TransitionsKeepConsistent | skills/learning_companion/coordination_manager.py:78-217 | every transition keeps active learning marked in progress with a recorded activity |
| Coordination.ActiveLearningStarted | skills/learning_companion/coordination_manager.py:78-82 | `start_active_learning`; keeps the state consistent by `TransitionsKeepConsistent`, and both guards then refuse by `NoAutomationDuringActiveLearning` |
| Coordination.ActiveLearningEnded | skills/learning_companion/coordination_manager.py:90-93 | `end_active_learning`; keeps the state consistent by `TransitionsKeepConsistent` |
| Coordination.ActivityUpdated | skills/learning_companion/coordination_manager.py:102 | `update_activity`; keeps the state consistent by `TransitionsKeepConsistent` |
| Coordination.AnkiReviewStarted | skills/learning_companion/coordination_manager.py:164-165 | `start_anki_review`; the teaching guard then refuses by `ReviewAndTeachingExclusive` |
| Coordination.AnkiReviewEnded | skills/learning_companion/coordination_manager.py:170 | `end_anki_review`; keeps the state consistent by `TransitionsKeepConsistent` |
| Coordination.AutoTeachingStarted | skills/learning_companion/coordination_manager.py:208-210 | `start_auto_teaching`; the review guard then refuses by `ReviewAndTeachingExclusive` |
| Coordination.AutoTeachingEnded | skills/learning_companion/coordination_manager.py:215-216 | `end_auto_teaching`; keeps the state consistent by `TransitionsKeepConsistent` |
| Coordination.SuppressionAfterPause | skills/learning_companion/coordination_manager.py:232-234 | the deadline after a pause: `now + hours` for a truthy duration, unchanged otherwise; its effect on both guards is `PauseSuppressesBoth` |
| Coordination.AutoLearningPaused | skills/learning_companion/coordination_manager.py:230-234 | `pause_auto_learning`; the teaching guard then refuses by `PauseRefuses` |
| Coordination.AutoLearningResumed | skills/learning_companion/coordination_manager.py:243-244 | `resume_auto_learning`; only the mode can refuse afterwards by `ResumeLiftsPauseAndSuppression` |
| Coordination.AutoReviewPaused | skills/learning_companion/coordination_manager.py:255-259 | `pause_auto_review`; the review guard then refuses by `PauseRefuses` |
| Coordination.AutoReviewResumed | skills/learning_companion/coordination_manager.py:268-269 | `resume_auto_review`; only the mode can refuse afterwards by `ResumeLiftsPauseAndSuppression` |
| Coordination.CoordinationManager.constructor | skills/learning_companion/coordination_manager.py:43-60 | the default state: idle, not learning, no topics, no times, no pauses |
| Coordination.CoordinationManager.StartActiveLearning | skills/learning_companion/coordination_manager.py:78-82 | active learning, in progress, the given topics, activity and main-conversation time now |
| Coordination.CoordinationManager.EndActiveLearning | skills/learning_companion/coordination_manager.py:90-93 | idle, not in progress, no topics, activity now |
| Coordination.CoordinationManager.UpdateActivity | skills/learning_companion/coordination_manager.py:102 | only the last activity changes, to now |
| Coordination.CoordinationManager.CheckAutoTimeout | skills/learning_companion/coordination_manager.py:115-127 | true iff no activity is recorded or more than the timeout has passed; active learning ends only on a real timeout while in progress |
| Coordination.CoordinationManager.CanAnkiReview | skills/learning_companion/coordination_manager.py:141-160 | returns the review verdict; runs the 30-minute timeout check only when allowed |
| Coordination.CoordinationManager.StartAnkiReview | skills/learning_companion/coordination_manager.py:164-165 | reviewing, with the review time now |
| Coordination.CoordinationManager.EndAnkiReview | skills/learning_companion/coordination_manager.py:170 | idle, nothing else changes |
| Coordination.CoordinationManager.CanAutoTeach | skills/learning_companion/coordination_manager.py:185-204 | returns the teaching verdict; runs the 30-minute timeout check only when allowed |
| Coordination.CoordinationManager.StartAutoTeaching | skills/learning_companion/coordination_manager.py:208-210 | auto-teaching, topics [topic], teaching time now |
| Coordination.CoordinationManager.EndAutoTeaching | skills/learning_companion/coordination_manager.py:215-216 | idle with no topics |
| Coordination.CoordinationManager.PauseAutoLearning | skills/learning_companion/coordination_manager.py:230-234 | sets the flag; sets `suppress_until = now + hours` only for a non-zero duration |
| Coordination.CoordinationManager.ResumeAutoLearning | skills/learning_companion/coordination_manager.py:243-244 | clears the flag and `suppress_until` |
| Coordination.CoordinationManager.PauseAutoReview | skills/learning_companion/coordination_manager.py:255-259 | sets the flag; sets `suppress_until = now + hours` only for a non-zero duration |
| Coordination.CoordinationManager.ResumeAutoReview | skills/learning_companion/coordination_manager.py:268-269 | clears the flag and `suppress_until` |

## Left out

- Persistence: `_load_*`, `_save_*`, JSON (de)serialisation and the `FileNotFoundError` fallbacks. Each class starts from the state a missing file gives, and its state lives in memory only.
- MD5 (smart_knowledge_base.py:113,169-170,220). Topic id and question digest are opaque deterministic functions. The hex truncation to 8 and 16 characters is not modelled, so distinct topics or questions whose digests collide are not distinguished.
- The wall clock and ISO strings. `datetime.now()` is a parameter, and timestamps are whole seconds. Sub-second precision is dropped. `mark_review_completed` compares ISO strings; the model compares the instants they denote.
- Clock.AddDays: instants are unbounded integers, so the `OverflowError` that `timestamp + timedelta(days=k)` raises past 9999-12-31 (learning_records.py:133) is not modelled. In the source that error leaves `add_qa_record` half done: the session is appended and the statistics updated (learning_records.py:87-88), but only some or none of the obligations are scheduled. The model always schedules all five.
- Clock.AddHours: instants are unbounded integers, so the `OverflowError` that `now + timedelta(hours=h)` raises outside years 1..9999 (coordination_manager.py:233,258) is not modelled.
- Coordination.SuppressionAfterPause: always gives `now + hours` for a truthy duration. In the source an out-of-range deadline raises `OverflowError` after the pause flag is already set (coordination_manager.py:230,255), so `suppress_until` is not written and the state is not saved. The model's pause methods always succeed.
- Clock.AddHours: does not state the exact result in its contract, only its ordering against `now`.
- Floating point. Similarity, means and thresholds are exact rationals; IEEE rounding is not modelled.
- `round(x, 1)` on the averages (learning_records.py:170,179). The statistics carry the exact means.
- LearningRecords.LearningRecords.UpdateStatistics: weak topics are ordered by their exact mean, while the source sorts by the rounded mean. Two topics whose means differ but round equal may come out in a different order.
- Scores are integers, as the source's `score: int` annotation says. Fractional scores are not modelled.
- Keywords.LowerChar: `str.lower()` is modelled for ASCII capitals only. Non-ASCII capitals (Greek, fullwidth Latin, ...) are left unchanged, and a character whose lower case is two code points (U+0130) stays one character; this affects `search_questions` but never the ideographs the keyword extractor keeps.
- `print` output, the reason strings and their `strftime` formatting. The guards return a `Refusal` value instead of a (bool, text) pair.
- `get_status`, `get_statistics` and `get_all_records` are plain getters and are not modelled.
- Aliasing of live mutable objects. `get_topic_questions` (smart_knowledge_base.py:223) returns the stored question list itself, and `get_pending_reviews` (learning_records.py:201) returns the stored obligation dicts themselves, so a caller that edits the result edits the knowledge base or `review_schedule`. `start_active_learning` (coordination_manager.py:80) stores the caller's `topics` list itself. The model returns and stores values in all three places.
- Default parameter values (`threshold=0.6`, `difficulty="medium"`, `tags=None`, `notes=""`, `timeout_minutes=30`, `date=None`) are passed explicitly.
- An empty string in `last_activity` or `suppress_until` (falsy in Python) is not representable: these are `Option` values.
- The `__main__` demonstrations of every file.
- `config_example.py` is not part of this model. It only builds paths and directories, and its call at line 67 passes a `state_file` argument that `CoordinationManager.__init__` (coordination_manager.py:32) does not accept.
- `__init__.py` only re-exports and is not part of this model.
- The poor table [1, 1, 3, 5, 10] (learning_records.py:130-133) gives its first two obligations the same one-day offset, hence the same date; the model follows the code.

## Findings

| source | as written | input that shows it | evidently intended | confidence | as-written member | corrected member |
|---|---|---|---|---|---|---|
| skills/learning_companion/learning_records.py:213-217 | `mark_review_completed` completes the first obligation matching the question and date, even when that one is already completed | a session scoring below 5 (poor tier, intervals [1, 1, 3, 5, 10]) schedules two obligations with the same question and the same date; marking that question and date any number of times completes only the first, so the second stays pending forever | complete the first still-open match, so that a second mark closes the twin | medium; not executed | LearningRecords.PoorTwinNeverCompleted | LearningRecords.MarkFirstPendingCloses |
