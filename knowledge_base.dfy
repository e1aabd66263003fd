/**
 * The smart knowledge base: questions grouped by topic, with a deduplication
 * gate that refuses exact duplicates (same question digest under the topic)
 * and, unless forced, questions whose keyword sets are similar to a stored one.
 *
 * The MD5 digests of the source (topic id, question hash) are the opaque,
 * deterministic functions `topicIdOf` and `questionHashOf` given to the
 * constructor. The topic map keeps its insertion order in `topicOrder`, as a
 * Python dictionary does.
 */
module KnowledgeBase {
  import opened Options
  import opened Clock
  import opened Keywords
  import opened Similarity
  import opened StableSort

  datatype QuestionRecord = QuestionRecord(
    questionHash: string,
    questionZh: string,
    questionEn: string,
    answerZh: string,
    answerEn: string,
    difficulty: string,
    tags: seq<string>,
    addedAt: Instant,
    reviewCount: nat,
    lastReviewed: Option<Instant>)

  datatype TopicEntry = TopicEntry(topicName: string, createdAt: Instant, questions: seq<QuestionRecord>)

  /** One entry of a similarity search: the stored question, its score and its digest. */
  datatype SimilarQuestion = SimilarQuestion(question: string, similarity: real, hash: string)

  /** The three outcomes of `add_question`; only `SimilarFound` carries the matches. */
  datatype AddStatus = Added | ExactDuplicate | SimilarFound(similar: seq<SimilarQuestion>)

  datatype TopicSummary = TopicSummary(topicId: string, topicName: string, questionCount: nat, createdAt: Instant)

  datatype SearchHit = SearchHit(topic: string, questionZh: string, questionEn: string, difficulty: string, tags: seq<string>)

  /** Topic id to topic entry. */
  type Topics = map<string, TopicEntry>

  /** The questions stored under topic id `id`; none for an unknown topic. */
  function QuestionsUnder(topics: Topics, id: string): seq<QuestionRecord>
  {
    if id in topics then topics[id].questions else []
  }

  /** Some stored question has digest `h`. */
  predicate HasHash(qs: seq<QuestionRecord>, h: string)
  {
    exists i :: 0 <= i < |qs| && qs[i].questionHash == h
  }

  /** No two stored questions share a digest. */
  predicate UniqueHashes(qs: seq<QuestionRecord>)
  {
    forall i, j :: 0 <= i < j < |qs| ==> qs[i].questionHash != qs[j].questionHash
  }

  /** Appending a question whose digest is not stored keeps the digests unique. */
  lemma AppendKeepsHashesUnique(qs: seq<QuestionRecord>, q: QuestionRecord)
    requires UniqueHashes(qs) && !HasHash(qs, q.questionHash)
    ensures UniqueHashes(qs + [q]) && HasHash(qs + [q], q.questionHash)
  {
    assert (qs + [q])[|qs|] == q;
  }

  // ---------------------------------------------------------------- similarity search

  function SimilarityOf(m: SimilarQuestion): real
  {
    m.similarity
  }

  /** The search entry of stored question `q` against the new question's keywords. */
  function Scored(q: QuestionRecord, keywords: set<string>): SimilarQuestion
  {
    SimilarQuestion(q.questionZh, Jaccard(keywords, ExtractKeywords(q.questionZh)), q.questionHash)
  }

  /** The stored questions scoring at least `threshold`, in stored order. */
  function Candidates(qs: seq<QuestionRecord>, keywords: set<string>, threshold: real): seq<SimilarQuestion>
  {
    if qs == [] then []
    else
      var m := Scored(qs[|qs| - 1], keywords);
      Candidates(qs[..|qs| - 1], keywords, threshold) + (if m.similarity >= threshold then [m] else [])
  }

  /** Scanning one more stored question appends its entry when it reaches the threshold. */
  lemma CandidatesStep(qs: seq<QuestionRecord>, i: nat, keywords: set<string>, threshold: real)
    requires i < |qs|
    ensures var m := Scored(qs[i], keywords);
      Candidates(qs[..i + 1], keywords, threshold)
      == Candidates(qs[..i], keywords, threshold) + (if m.similarity >= threshold then [m] else [])
  {
    assert qs[..i + 1][..i] == qs[..i];
  }

  /**
   * The candidates are exactly the entries of the stored questions that score
   * at least the threshold.
   */
  lemma {:induction false} CandidatesExactly(qs: seq<QuestionRecord>, keywords: set<string>, threshold: real, m: SimilarQuestion)
    ensures m in Candidates(qs, keywords, threshold) <==>
      m.similarity >= threshold && exists q :: q in qs && m == Scored(q, keywords)
  {
    if qs != [] {
      var front, last := qs[..|qs| - 1], qs[|qs| - 1];
      assert qs == front + [last];
      CandidatesExactly(front, keywords, threshold, m);
      if m == Scored(last, keywords) {
        assert last in qs;
      }
      if exists q :: q in qs && m == Scored(q, keywords) {
        var q :| q in qs && m == Scored(q, keywords);
        assert q == last || q in front;
      }
    }
  }

  /** `find_similar_questions`: the candidates sorted by similarity, highest first, stably. */
  function FindSimilar(topics: Topics, id: string, question: string, threshold: real): seq<SimilarQuestion>
  {
    if id !in topics then []
    else SortDescending(Candidates(topics[id].questions, ExtractKeywords(question), threshold), SimilarityOf)
  }

  /** A topic that has just been created holds nothing to be similar to. */
  lemma FindSimilarFreshTopic(topics: Topics, id: string, topic: string, now: Instant, question: string, threshold: real)
    requires id !in topics
    ensures FindSimilar(topics[id := TopicEntry(topic, now, [])], id, question, threshold) == []
    ensures FindSimilar(topics, id, question, threshold) == []
  {
    var c := Candidates([], ExtractKeywords(question), threshold);
    assert c == [];
  }

  /**
   * Every entry found scores at least the threshold (inclusive) and is the
   * entry of a question stored under the topic; an unknown topic finds nothing.
   */
  lemma FindSimilarSound(topics: Topics, id: string, question: string, threshold: real, m: SimilarQuestion)
    requires m in FindSimilar(topics, id, question, threshold)
    ensures id in topics
    ensures m.similarity >= threshold
    ensures exists q :: q in topics[id].questions && m == Scored(q, ExtractKeywords(question))
  {
    var c := Candidates(topics[id].questions, ExtractKeywords(question), threshold);
    assert m in multiset(FindSimilar(topics, id, question, threshold));
    assert m in c;
    CandidatesExactly(topics[id].questions, ExtractKeywords(question), threshold, m);
  }

  /** Every stored question of the topic that reaches the threshold is found. */
  lemma FindSimilarComplete(topics: Topics, id: string, question: string, threshold: real, q: QuestionRecord)
    requires id in topics && q in topics[id].questions
    requires Scored(q, ExtractKeywords(question)).similarity >= threshold
    ensures Scored(q, ExtractKeywords(question)) in FindSimilar(topics, id, question, threshold)
  {
    var c := Candidates(topics[id].questions, ExtractKeywords(question), threshold);
    CandidatesExactly(topics[id].questions, ExtractKeywords(question), threshold, Scored(q, ExtractKeywords(question)));
    assert Scored(q, ExtractKeywords(question)) in multiset(c);
  }

  /**
   * The matches are ordered by similarity, highest first, and matches with
   * equal similarity appear in the order their questions are stored.
   */
  lemma FindSimilarOrdered(topics: Topics, id: string, question: string, threshold: real, v: real)
    requires id in topics
    ensures var r := FindSimilar(topics, id, question, threshold);
      forall i, j :: 0 <= i < j < |r| ==> r[i].similarity >= r[j].similarity
    ensures WithKey(FindSimilar(topics, id, question, threshold), SimilarityOf, v)
         == WithKey(Candidates(topics[id].questions, ExtractKeywords(question), threshold), SimilarityOf, v)
  {
    var c := Candidates(topics[id].questions, ExtractKeywords(question), threshold);
    SortDescendingStable(c, SimilarityOf, v);
  }

  // ---------------------------------------------------------------- search

  /** Python's `needle in hay` on strings. */
  function Contains(hay: string, needle: string): (r: bool)
    ensures r <==> IsWindow(hay, needle)
    decreases |hay|
  {
    if |needle| > |hay| then false
    else if hay[..|needle|] == needle then
      assert Window(hay, 0, |needle|) == needle;
      true
    else
      var rest := Contains(hay[1..], needle);
      assert rest ==> IsWindow(hay, needle) by {
        if rest {
          var i :| 0 <= i <= |hay| - 1 - |needle| && Window(hay[1..], i, |needle|) == needle;
          assert Window(hay, i + 1, |needle|) == needle;
        }
      }
      assert IsWindow(hay, needle) ==> rest by {
        if IsWindow(hay, needle) {
          var i :| 0 <= i <= |hay| - |needle| && Window(hay, i, |needle|) == needle;
          assert i != 0;
          assert Window(hay[1..], i - 1, |needle|) == needle;
        }
      }
      rest
  }

  /** The question or its answer, in either language, contains the keyword, ignoring case. */
  predicate Mentions(q: QuestionRecord, keyword: string)
  {
    var k := Lower(keyword);
    Contains(Lower(q.questionZh), k) || Contains(Lower(q.questionEn), k)
    || Contains(Lower(q.answerZh), k) || Contains(Lower(q.answerEn), k)
  }

  function HitOf(topicName: string, q: QuestionRecord): SearchHit
  {
    SearchHit(topicName, q.questionZh, q.questionEn, q.difficulty, q.tags)
  }

  /** The hits of one topic, in stored order. */
  function TopicHits(topicName: string, qs: seq<QuestionRecord>, keyword: string): (r: seq<SearchHit>)
    ensures forall h :: h in r ==> exists q :: q in qs && Mentions(q, keyword) && h == HitOf(topicName, q)
    ensures forall q :: q in qs && Mentions(q, keyword) ==> HitOf(topicName, q) in r
  {
    if qs == [] then []
    else
      var front := qs[..|qs| - 1];
      var last := qs[|qs| - 1];
      assert qs == front + [last];
      TopicHits(topicName, front, keyword) + (if Mentions(last, keyword) then [HitOf(topicName, last)] else [])
  }

  /** The hits of the topics listed in `order`, topic by topic. */
  function AllHits(topics: Topics, order: seq<string>, keyword: string): seq<SearchHit>
    requires forall id :: id in order ==> id in topics
  {
    if order == [] then []
    else
      var id := order[|order| - 1];
      AllHits(topics, order[..|order| - 1], keyword) + TopicHits(topics[id].topicName, topics[id].questions, keyword)
  }

  /** Scanning one more question of a topic appends its hit when it mentions the keyword. */
  lemma TopicHitsStep(topicName: string, qs: seq<QuestionRecord>, j: nat, keyword: string)
    requires j < |qs|
    ensures TopicHits(topicName, qs[..j + 1], keyword)
         == TopicHits(topicName, qs[..j], keyword) + (if Mentions(qs[j], keyword) then [HitOf(topicName, qs[j])] else [])
  {
    assert qs[..j + 1][..j] == qs[..j];
  }

  /** Scanning one more topic appends all of its hits. */
  lemma AllHitsStep(topics: Topics, order: seq<string>, k: nat, keyword: string)
    requires forall id :: id in order ==> id in topics
    requires k < |order|
    ensures AllHits(topics, order[..k + 1], keyword)
         == AllHits(topics, order[..k], keyword)
            + TopicHits(topics[order[k]].topicName, topics[order[k]].questions, keyword)
  {
    assert order[..k + 1][..k] == order[..k];
  }

  /** Every hit is a stored question, under one of the listed topics, that mentions the keyword. */
  lemma {:induction false} SearchSound(topics: Topics, order: seq<string>, keyword: string, h: SearchHit)
    requires forall id :: id in order ==> id in topics
    requires h in AllHits(topics, order, keyword)
    ensures exists id, q :: id in order && q in topics[id].questions && Mentions(q, keyword)
                            && h == HitOf(topics[id].topicName, q)
  {
    var id := order[|order| - 1];
    var front := order[..|order| - 1];
    if h in AllHits(topics, front, keyword) {
      SearchSound(topics, front, keyword, h);
      var id', q :| id' in front && q in topics[id'].questions && Mentions(q, keyword)
                    && h == HitOf(topics[id'].topicName, q);
      assert id' in order;
    } else {
      assert h in TopicHits(topics[id].topicName, topics[id].questions, keyword);
    }
  }

  /** Every stored question, under a listed topic, that mentions the keyword is a hit. */
  lemma {:induction false} SearchComplete(topics: Topics, order: seq<string>, keyword: string, id: string, q: QuestionRecord)
    requires forall id :: id in order ==> id in topics
    requires id in order && q in topics[id].questions && Mentions(q, keyword)
    ensures HitOf(topics[id].topicName, q) in AllHits(topics, order, keyword)
  {
    var last := order[|order| - 1];
    var front := order[..|order| - 1];
    if id != last {
      assert order == front + [last];
      SearchComplete(topics, front, keyword, id, q);
    }
  }

  // ---------------------------------------------------------------- adding

  /** `tags or []`. */
  function TagsOrEmpty(tags: Option<seq<string>>): seq<string>
  {
    if tags.Some? then tags.value else []
  }

  /** The entry `add_question` appends. */
  function NewRecord(h: string, questionZh: string, questionEn: string, answerZh: string, answerEn: string,
                     difficulty: string, tags: Option<seq<string>>, now: Instant): QuestionRecord
  {
    QuestionRecord(h, questionZh, questionEn, answerZh, answerEn, difficulty, TagsOrEmpty(tags), now, 0, None)
  }

  /** The topic entry under id `id`, or the fresh one `add_question` creates for it. */
  function EntryOrNew(topics: Topics, id: string, topic: string, now: Instant): TopicEntry
  {
    if id in topics then topics[id] else TopicEntry(topic, now, [])
  }

  /** Each listed topic id once, exactly the stored ids, and unique digests under every topic. */
  ghost predicate WellFormed(topics: Topics, order: seq<string>)
  {
    && (forall i, j :: 0 <= i < j < |order| ==> order[i] != order[j])
    && topics.Keys == (set x | x in order)
    && (forall id :: id in topics ==> UniqueHashes(topics[id].questions))
  }

  /** The topics after `add_question` appends `q` under id `id` (creating the topic if needed). */
  function TopicsAfterAdd(topics: Topics, id: string, topic: string, now: Instant, q: QuestionRecord): Topics
  {
    var e := EntryOrNew(topics, id, topic, now);
    topics[id := e.(questions := e.questions + [q])]
  }

  /** The topic order after `add_question` adds under id `id`. */
  function OrderAfterAdd(topics: Topics, order: seq<string>, id: string): seq<string>
  {
    if id in topics then order else order + [id]
  }

  /**
   * Adding a question whose digest is not yet stored under its topic keeps
   * the knowledge base well formed; in particular digests stay unique.
   */
  lemma AddKeepsWellFormed(topics: Topics, order: seq<string>, id: string, topic: string, now: Instant, q: QuestionRecord)
    requires WellFormed(topics, order)
    requires !HasHash(QuestionsUnder(topics, id), q.questionHash)
    ensures WellFormed(TopicsAfterAdd(topics, id, topic, now, q), OrderAfterAdd(topics, order, id))
  {
    var t := TopicsAfterAdd(topics, id, topic, now, q);
    var o := OrderAfterAdd(topics, order, id);
    AppendKeepsHashesUnique(QuestionsUnder(topics, id), q);
    forall x | x in t ensures UniqueHashes(t[x].questions) {
      if x != id {
        assert t[x] == topics[x];
      }
    }
    if id !in topics {
      assert id !in order;
      forall x ensures x in t <==> x in o {
        assert x in o <==> x in order || x == id;
      }
    }
  }

  class SmartKnowledgeBase {
    const topicIdOf: string -> string
    const questionHashOf: string -> string
    var topics: Topics
    var topicOrder: seq<string>

    /** `topicOrder` lists each topic id once, and no topic holds two questions with one digest. */
    ghost predicate Valid()
      reads this
    {
      WellFormed(topics, topicOrder)
    }

    /** The empty knowledge base of a first use. */
    constructor (topicIdOf: string -> string, questionHashOf: string -> string)
      ensures Valid()
      ensures this.topicIdOf == topicIdOf && this.questionHashOf == questionHashOf
      ensures topics == map[] && topicOrder == []
    {
      this.topicIdOf := topicIdOf;
      this.questionHashOf := questionHashOf;
      topics := map[];
      topicOrder := [];
    }

    method FindSimilarQuestions(topic: string, newQuestion: string, threshold: real) returns (similar: seq<SimilarQuestion>)
      ensures similar == FindSimilar(topics, topicIdOf(topic), newQuestion, threshold)
    {
      var id := topicIdOf(topic);
      if id !in topics {
        return [];
      }
      var newKeywords := ExtractKeywords(newQuestion);
      var qs := topics[id].questions;
      var found: seq<SimilarQuestion> := [];
      var i := 0;
      while i < |qs|
        invariant 0 <= i <= |qs|
        invariant found == Candidates(qs[..i], newKeywords, threshold)
      {
        // the existing question's keywords, its Jaccard score, and its entry
        var entry := Scored(qs[i], newKeywords);
        CandidatesStep(qs, i, newKeywords, threshold);
        if entry.similarity >= threshold {
          found := found + [entry];
        }
        i := i + 1;
      }
      assert qs[..|qs|] == qs;
      similar := SortDescending(found, SimilarityOf);
    }

    method AddQuestion(topic: string, questionZh: string, questionEn: string, answerZh: string, answerEn: string,
                       difficulty: string, tags: Option<seq<string>>, force: bool, now: Instant)
      returns (status: AddStatus)
      requires Valid()
      modifies this
      ensures Valid()
      ensures var id := topicIdOf(topic);
              var stored := QuestionsUnder(old(topics), id);
              var similar := FindSimilar(old(topics), id, questionZh, DefaultThreshold);
              && (status == ExactDuplicate <==> HasHash(stored, questionHashOf(questionZh)))
              && (status.SimilarFound? <==> !HasHash(stored, questionHashOf(questionZh)) && !force && similar != [])
              && (status.SimilarFound? ==> status.similar == similar)
    // nothing changes unless the question is added
      ensures status != Added ==> topics == old(topics) && topicOrder == old(topicOrder)
    // on ADDED: one new entry at the end of the topic's list, the rest untouched
      ensures status == Added ==>
        var id := topicIdOf(topic);
        var q := NewRecord(questionHashOf(questionZh), questionZh, questionEn, answerZh, answerEn, difficulty, tags, now);
        && topics == TopicsAfterAdd(old(topics), id, topic, now, q)
        && topicOrder == OrderAfterAdd(old(topics), old(topicOrder), id)
    {
      var id := topicIdOf(topic);
      var h := questionHashOf(questionZh);
      ghost var topics0, order0 := topics, topicOrder;
      ghost var existed := id in topics;
      if id !in topics {
        topics := topics[id := TopicEntry(topic, now, [])];
        topicOrder := topicOrder + [id];
      }
      var qs := topics[id].questions;
      assert qs == QuestionsUnder(topics0, id);
      var duplicate := ContainsHash(qs, h);
      if duplicate {
        assert existed;
        status := ExactDuplicate;
        return;
      }
      if !force {
        var similar := FindSimilarQuestions(topic, questionZh, DefaultThreshold);
        if !existed {
          FindSimilarFreshTopic(topics0, id, topic, now, questionZh, DefaultThreshold);
        }
        if similar != [] {
          status := SimilarFound(similar);
          return;
        }
      }
      var entry := NewRecord(h, questionZh, questionEn, answerZh, answerEn, difficulty, tags, now);
      AddKeepsWellFormed(topics0, order0, id, topic, now, entry);
      ghost var e := topics[id].(questions := qs + [entry]);
      if !existed {
        assert topics[id := e] == topics0[id := e];
      }
      topics := topics[id := topics[id].(questions := qs + [entry])];
      status := Added;
    }

    /** The duplicate check of `add_question`: is digest `h` stored in `qs`? */
    static method ContainsHash(qs: seq<QuestionRecord>, h: string) returns (found: bool)
      ensures found == HasHash(qs, h)
    {
      var i := 0;
      while i < |qs|
        invariant 0 <= i <= |qs|
        invariant forall k :: 0 <= k < i ==> qs[k].questionHash != h
      {
        if qs[i].questionHash == h {
          return true;
        }
        i := i + 1;
      }
      return false;
    }

    function GetTopicQuestions(topic: string): (qs: seq<QuestionRecord>)
      reads this
      ensures topicIdOf(topic) !in topics ==> qs == []
      ensures topicIdOf(topic) in topics ==> qs == topics[topicIdOf(topic)].questions
    {
      QuestionsUnder(topics, topicIdOf(topic))
    }

    method ListTopics() returns (summaries: seq<TopicSummary>)
      requires Valid()
      ensures |summaries| == |topicOrder|
      ensures forall k :: 0 <= k < |summaries| ==>
        var e := topics[topicOrder[k]];
        summaries[k] == TopicSummary(topicOrder[k], e.topicName, |e.questions|, e.createdAt)
    {
      summaries := [];
      var k := 0;
      while k < |topicOrder|
        invariant 0 <= k <= |topicOrder|
        invariant |summaries| == k
        invariant forall j :: 0 <= j < k ==>
          var e := topics[topicOrder[j]];
          summaries[j] == TopicSummary(topicOrder[j], e.topicName, |e.questions|, e.createdAt)
      {
        var id := topicOrder[k];
        var e := topics[id];
        summaries := summaries + [TopicSummary(id, e.topicName, |e.questions|, e.createdAt)];
        k := k + 1;
      }
    }

    method SearchQuestions(keyword: string) returns (hits: seq<SearchHit>)
      requires Valid()
      ensures hits == AllHits(topics, topicOrder, keyword)
    {
      hits := [];
      var k := 0;
      while k < |topicOrder|
        invariant 0 <= k <= |topicOrder|
        invariant hits == AllHits(topics, topicOrder[..k], keyword)
      {
        var id := topicOrder[k];
        var e := topics[id];
        var j := 0;
        ghost var before := hits;
        while j < |e.questions|
          invariant 0 <= j <= |e.questions|
          invariant hits == before + TopicHits(e.topicName, e.questions[..j], keyword)
        {
          var q := e.questions[j];
          TopicHitsStep(e.topicName, e.questions, j, keyword);
          if Mentions(q, keyword) {
            hits := hits + [HitOf(e.topicName, q)];
          }
          j := j + 1;
        }
        assert e.questions[..j] == e.questions;
        AllHitsStep(topics, topicOrder, k, keyword);
        k := k + 1;
      }
      assert topicOrder[..k] == topicOrder;
    }
  }
}
