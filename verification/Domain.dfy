/** Data types of the quiz domain (backend/internal/domain).

    Identifiers (participants, questions, options, submissions, epochs, content
    hashes) are opaque: the programs only compare them, and Redis orders
    participant ids, so they are naturals here. */
module Domain {

  type Id = nat

  datatype Option<+T> = None | Some(value: T)

  datatype Difficulty = Easy | Medium | Hard

  datatype Timing = Timing(difficulty: Difficulty, seconds: int)

  datatype Vocabulary = Vocabulary(word: string, definition: string)

  datatype Choice = Choice(id: Id, text: string)

  /** The public part of a question. Timing and pronunciation are absent in stored
      definitions and receipts; the server adds them when it presents or teaches. */
  datatype Question = Question(
    id: Id, prompt: string, options: seq<Choice>, timing: Option<Timing>, pronunciation: string)

  datatype Study = Study(timing: Timing, vocabulary: Vocabulary, publicPronunciation: string)

  datatype Graded = Graded(question: Question, correctOptionId: Id, explanation: string, study: Study)

  datatype Quiz = Quiz(id: Id, title: string, contentVersion: Id, legacyContentVersion: Id, questions: seq<Graded>)

  datatype Receipt = Receipt(
    submissionId: Id, quizId: Id, epoch: Id, questionId: Id, selectedOptionId: Id,
    correctness: bool, timedOut: bool, deadlineMs: int, acceptedAtMs: int,
    pointsAwarded: int, totalScoreAtAcceptance: int, acceptedVersion: int,
    correctOptionId: Id, explanation: string, question: Question, questionNumber: int,
    vocabulary: Option<Vocabulary>)

  type Manifest = map<Id, seq<Id>>

  datatype Plan = Plan(contentVersion: Id, questionOrder: seq<Id>, optionOrders: map<Id, seq<Id>>)

  predicate Distinct<T(==)>(s: seq<T>) {
    forall i, j :: 0 <= i < j < |s| ==> s[i] != s[j]
  }

  /** `a` lists the members of `b` in some order, with the same multiplicities. */
  predicate Permutes<T(==)>(a: seq<T>, b: seq<T>) {
    multiset(a) == multiset(b)
  }

  function Ids(options: seq<Choice>): (ids: seq<Id>)
    ensures |ids| == |options|
  {
    seq(|options|, i requires 0 <= i < |options| => options[i].id)
  }

  function QuestionIds(q: Quiz): (ids: seq<Id>)
    ensures |ids| == |q.questions|
  {
    seq(|q.questions|, i requires 0 <= i < |q.questions| => q.questions[i].question.id)
  }

  predicate ValidGraded(g: Graded) {
    && |g.question.options| == 4
    && Distinct(Ids(g.question.options))
    && g.correctOptionId in Ids(g.question.options)
    && g.question.timing == None
    && g.question.pronunciation == ""
    && 1 <= g.study.timing.seconds <= 120
  }

  /** What seeding and publication guarantee of a served quiz: 4 to 8 questions with
      distinct ids, four distinct options each, one of them correct, and a duration
      of 1 to 120 seconds. */
  predicate LiveQuiz(q: Quiz) {
    && 4 <= |q.questions| <= 8
    && Distinct(QuestionIds(q))
    && forall i {:trigger ValidGraded(q.questions[i])} :: 0 <= i < |q.questions| ==> ValidGraded(q.questions[i])
  }

  function Find(questions: seq<Graded>, id: Id): Option<Graded> {
    if questions == [] then None
    else if questions[0].question.id == id then Some(questions[0])
    else Find(questions[1..], id)
  }

  /** Quiz.Question: the first question with this id. */
  function Lookup(q: Quiz, id: Id): Option<Graded> {
    Find(q.questions, id)
  }

  lemma {:induction false} FindFirst(questions: seq<Graded>, id: Id)
    ensures Find(questions, id).Some? <==> exists k :: 0 <= k < |questions| && questions[k].question.id == id
    ensures Find(questions, id).Some? ==>
      Find(questions, id).value in questions && Find(questions, id).value.question.id == id
    decreases |questions|
  {
    if questions != [] && questions[0].question.id != id {
      FindFirst(questions[1..], id);
      if k :| 0 <= k < |questions| && questions[k].question.id == id {
        assert questions[1..][k - 1].question.id == id;
      }
      if Find(questions[1..], id).Some? {
        var k :| 0 <= k < |questions| - 1 && questions[1..][k].question.id == id;
        assert questions[k + 1].question.id == id;
      }
    }
  }

  lemma LookupKnown(q: Quiz, id: Id)
    ensures Lookup(q, id).Some? <==> id in QuestionIds(q)
    ensures Lookup(q, id).Some? ==> Lookup(q, id).value in q.questions && Lookup(q, id).value.question.id == id
  {
    FindFirst(q.questions, id);
    if k :| 0 <= k < |q.questions| && q.questions[k].question.id == id {
      assert QuestionIds(q)[k] == id;
    }
  }

  lemma LookupAt(q: Quiz, i: nat)
    requires LiveQuiz(q) && i < |q.questions|
    ensures Lookup(q, q.questions[i].question.id) == Some(q.questions[i])
    ensures ValidGraded(q.questions[i])
  {
    var ids := QuestionIds(q);
    LookupKnown(q, ids[i]);
    var g := Lookup(q, ids[i]).value;
    var k :| 0 <= k < |q.questions| && q.questions[k] == g;
    assert ids[k] == ids[i];
  }

  lemma LookupValid(q: Quiz, id: Id)
    requires LiveQuiz(q) && id in QuestionIds(q)
    ensures Lookup(q, id).Some? && ValidGraded(Lookup(q, id).value)
    ensures Lookup(q, id).value.question.id == id
  {
    LookupKnown(q, id);
  }

  /** A hash field is the participant id, a colon and a second id. Participant ids
      are hexadecimal, so they hold no colon, and the field determines both parts.
      The room model keys its maps by the pair. */
  function Field(pid: string, other: string): string {
    pid + ":" + other
  }

  lemma {:induction false} FieldInjective(p1: string, o1: string, p2: string, o2: string)
    requires ':' !in p1 && ':' !in p2
    requires Field(p1, o1) == Field(p2, o2)
    ensures p1 == p2 && o1 == o2
  {
    var f, g := Field(p1, o1), Field(p2, o2);
    assert f[|p1|] == ':' && g[|p2|] == ':';
    assert forall i :: 0 <= i < |p1| ==> f[i] == p1[i] != ':';
    assert forall i :: 0 <= i < |p2| ==> g[i] == p2[i] != ':';
    assert p1 == f[..|p1|] && p2 == g[..|p2|];
    assert o1 == f[|p1| + 1..] && o2 == g[|p2| + 1..];
  }
}
