/** The inductive invariant of a room: its seven maps encode one another. */
module RoomInvariant {
  import opened Domain
  import opened Attempt
  import opened Standings
  import opened Room

  /** Points of the participant's receipts along `order` accepted at version `upTo` or before. */
  function Earned(order: seq<Id>, answers: map<Field, Receipt>, pid: Id, upTo: int): int {
    if order == [] then 0
    else
      var last := |order| - 1;
      var f := (pid, order[last]);
      Earned(order[..last], answers, pid, upTo)
        + (if f in answers && answers[f].acceptedVersion <= upTo then answers[f].pointsAwarded else 0)
  }

  function PointsFor(correct: bool, timedOut: bool): int {
    if correct then (if timedOut then 50 else 100) else 0
  }

  /** A stored receipt agrees with the quiz, with the answerer's plan and with itself. */
  ghost predicate GradedWell(g: Graded, plan: Plan, r: Receipt) {
    && r.questionId == g.question.id && r.questionId in plan.optionOrders
    && r.correctOptionId == g.correctOptionId && r.explanation == g.explanation
    && r.selectedOptionId in Ids(g.question.options)
    && r.correctness == (r.selectedOptionId == r.correctOptionId)
    && r.pointsAwarded == PointsFor(r.correctness, r.timedOut)
    && r.question == Rearranged(g, plan.optionOrders[r.questionId])
    && r.questionNumber == Position(plan.questionOrder, r.questionId)
    && r.vocabulary == None
  }

  ghost predicate ReceiptFits(q: Quiz, m: Meta, s: State, f: Field)
    requires f in s.answers
  {
    var r := s.answers[f];
    && f.0 in s.attempts && f.1 in ManifestOf(q) && Lookup(q, f.1).Some?
    && r.questionId == f.1 && r.quizId == q.id && r.epoch == m.epoch
    && 1 <= r.acceptedVersion <= m.version
    && GradedWell(Lookup(q, f.1).value, s.attempts[f.0], r)
    && r.totalScoreAtAcceptance == Earned(s.attempts[f.0].questionOrder, s.answers, f.0, r.acceptedVersion)
  }

  ghost predicate Progress(m: Meta, s: State, pid: Id) {
    && pid in s.participants && pid in s.attempts && pid in s.scores
    && var order := s.attempts[pid].questionOrder;
    && s.participants[pid].name != ""
    && s.participants[pid].count == AnsweredIn(order, s.answers.Keys, pid)
    && s.participants[pid].cursor == FirstOpen(order, s.answers.Keys, pid)
    && s.scores[pid] == Earned(order, s.answers, pid, m.version)
  }

  ghost predicate SameMembers(s: State) {
    s.participants.Keys == s.scores.Keys == s.attempts.Keys
  }

  ghost predicate PlansFit(q: Quiz, content: Id, s: State) {
    forall pid {:trigger PlanFits(ManifestOf(q), content, s.attempts[pid])} :: pid in s.attempts ==>
      PlanFits(ManifestOf(q), content, s.attempts[pid])
  }

  ghost predicate AllProgress(m: Meta, s: State) {
    forall pid {:trigger Progress(m, s, pid)} :: pid in s.participants ==> Progress(m, s, pid)
  }

  ghost predicate Receipts(q: Quiz, m: Meta, s: State) {
    forall f {:trigger ReceiptFits(q, m, s, f)} :: f in s.answers ==> ReceiptFits(q, m, s, f)
  }

  /** Answers and requests hold the same receipts under two keys. */
  ghost predicate Mirrored(s: State) {
    && (forall f :: f in s.requests ==>
          var r := s.requests[f];
          r.submissionId == f.1 && (f.0, r.questionId) in s.answers && s.answers[(f.0, r.questionId)] == r)
    && (forall f :: f in s.answers ==>
          (f.0, s.answers[f].submissionId) in s.requests
          && s.requests[(f.0, s.answers[f].submissionId)] == s.answers[f])
  }

  ghost predicate OneVersionEach(s: State) {
    forall f, g {:trigger s.answers[f], s.answers[g]} :: f in s.answers && g in s.answers && f != g ==>
      s.answers[f].acceptedVersion != s.answers[g].acceptedVersion
  }

  ghost predicate Timers(s: State) {
    forall f :: f in s.timers ==> 0 < s.timers[f] <= MAX_SAFE
  }

  ghost predicate MetaFits(q: Quiz, content: Id, m: Meta, s: State) {
    && m.content == content && m.manifest == ManifestOf(q)
    && 1 <= m.capacity <= 200 && |s.participants| <= m.capacity
    && m.version == |s.participants| + |s.answers|
  }

  /** What holds of every room that serves quiz `q` under content version `content`. */
  ghost predicate Inv(q: Quiz, content: Id, s: State) {
    && s.meta.Some?
    && MetaFits(q, content, s.meta.value, s)
    && SameMembers(s) && PlansFit(q, content, s) && AllProgress(s.meta.value, s)
    && Receipts(q, s.meta.value, s)
    && Mirrored(s)
    && OneVersionEach(s)
    && Timers(s)
  }

  /** A room before its first seeding, or one that satisfies Inv. */
  ghost predicate Legal(q: Quiz, s: State) {
    if s.meta.None? then Hollow(s) else Inv(q, q.contentVersion, s)
  }

  /** The arguments the Go store passes for quiz `q`. */
  ghost predicate Issued(q: Quiz, cmd: Command) {
    match cmd
    case Reset(_, capacity, manifest) => 1 <= capacity <= 200 && manifest == ManifestOf(q)
    case Seed(_, capacity, manifest, legacy) =>
      1 <= capacity <= 200 && manifest == ManifestOf(q) && legacy == q.legacyContentVersion
    case Preview => true
    case Join(_, name, plan) =>
      name != "" && (plan.Some? ==> PlanFits(ManifestOf(q), q.contentVersion, plan.value))
    case Start(_, _, qid, durationMs) =>
      qid in ManifestOf(q) && Lookup(q, qid).Some? && durationMs == Lookup(q, qid).value.study.timing.seconds * 1000
    case Answer(_, _, _, qid, option, points, quizId, correctId, explanation, question) =>
      && qid in ManifestOf(q) && Lookup(q, qid).Some?
      && var g := Lookup(q, qid).value;
      && option in Ids(g.question.options)
      && points == (if g.correctOptionId == option then 100 else 0)
      && quizId == q.id && correctId == g.correctOptionId && explanation == g.explanation
      && question == g.question
    case Snapshot(_) => true
  }

  /** Redis time in milliseconds, with room for a deadline below 2^53. */
  predicate Ticking(now: int) { 0 < now && now + 120000 <= MAX_SAFE }

  // ---------- Sums over a plan ----------

  lemma {:induction false} EarnedUnchanged(order: seq<Id>, a: map<Field, Receipt>, b: map<Field, Receipt>, pid: Id,
      upTo: int, upTo': int)
    requires forall qid :: qid in order ==> ((pid, qid) in a <==> (pid, qid) in b)
    requires forall qid :: qid in order && (pid, qid) in a ==>
      a[(pid, qid)] == b[(pid, qid)]
        && (a[(pid, qid)].acceptedVersion <= upTo <==> a[(pid, qid)].acceptedVersion <= upTo')
    ensures Earned(order, a, pid, upTo) == Earned(order, b, pid, upTo')
    decreases |order|
  {
    if order != [] {
      var last := |order| - 1;
      assert order[last] in order;
      assert forall qid :: qid in order[..last] ==> qid in order;
      EarnedUnchanged(order[..last], a, b, pid, upTo, upTo');
    }
  }

  lemma DistinctInit(order: seq<Id>)
    requires Distinct(order) && order != []
    ensures Distinct(order[..|order| - 1]) && order[|order| - 1] !in order[..|order| - 1]
    ensures forall x :: x in order <==> x in order[..|order| - 1] || x == order[|order| - 1]
  {
    var last := |order| - 1;
    assert order == order[..last] + [order[last]];
    assert forall i :: 0 <= i < last ==> order[..last][i] == order[i];
  }

  /** One more receipt adds its points, once. */
  lemma {:induction false} EarnedGrows(order: seq<Id>, a: map<Field, Receipt>, pid: Id, qid: Id, r: Receipt, upTo: int)
    requires Distinct(order) && (pid, qid) !in a && upTo < r.acceptedVersion
    requires forall x :: x in order && (pid, x) in a ==> a[(pid, x)].acceptedVersion <= upTo
    ensures Earned(order, a[(pid, qid) := r], pid, r.acceptedVersion)
      == Earned(order, a, pid, upTo) + (if qid in order then r.pointsAwarded else 0)
    decreases |order|
  {
    hide Distinct;
    if order != [] {
      DistinctInit(order);
      var last := |order| - 1;
      if order[last] == qid {
        EarnedUnchanged(order[..last], a, a[(pid, qid) := r], pid, upTo, r.acceptedVersion);
      } else {
        EarnedGrows(order[..last], a, pid, qid, r, upTo);
      }
    }
  }

  lemma {:induction false} EarnedNothing(order: seq<Id>, answers: map<Field, Receipt>, pid: Id, upTo: int)
    requires forall qid :: qid in order ==> (pid, qid) !in answers
    ensures Earned(order, answers, pid, upTo) == 0
    ensures AnsweredIn(order, answers.Keys, pid) == 0
    decreases |order|
  {
    if order != [] {
      assert order[|order| - 1] in order;
      assert forall x :: x in order[..|order| - 1] ==> x in order;
      EarnedNothing(order[..|order| - 1], answers, pid, upTo);
    }
  }

  /** Each answered question brings at most 100 points, in steps of 50. */
  lemma {:induction false} EarnedBounds(order: seq<Id>, answers: map<Field, Receipt>, pid: Id, upTo: int)
    requires forall qid :: qid in order && (pid, qid) in answers ==>
      answers[(pid, qid)].pointsAwarded in {0, 50, 100}
    ensures 0 <= Earned(order, answers, pid, upTo) <= 100 * AnsweredIn(order, answers.Keys, pid)
    ensures Earned(order, answers, pid, upTo) % 50 == 0
    decreases |order|
  {
    if order != [] {
      var last := |order| - 1;
      assert order[last] in order;
      assert forall x :: x in order[..last] ==> x in order;
      EarnedBounds(order[..last], answers, pid, upTo);
    }
  }

  lemma {:induction false} AnsweredUnchanged(order: seq<Id>, a: set<Field>, b: set<Field>, pid: Id)
    requires forall qid :: qid in order ==> ((pid, qid) in a <==> (pid, qid) in b)
    ensures AnsweredIn(order, a, pid) == AnsweredIn(order, b, pid)
    ensures FirstOpen(order, a, pid) == FirstOpen(order, b, pid)
    decreases |order|
  {
    if order != [] {
      var last := |order| - 1;
      assert order[last] in order;
      assert forall x :: x in order[..last] ==> x in order;
      AnsweredUnchanged(order[..last], a, b, pid);
    }
  }

  lemma {:induction false} AnsweredGrows(order: seq<Id>, a: set<Field>, pid: Id, qid: Id)
    requires Distinct(order) && (pid, qid) !in a
    ensures AnsweredIn(order, a + {(pid, qid)}, pid) == AnsweredIn(order, a, pid) + (if qid in order then 1 else 0)
    decreases |order|
  {
    hide Distinct;
    if order != [] {
      DistinctInit(order);
      var last := |order| - 1;
      if order[last] == qid {
        AnsweredUnchanged(order[..last], a, a + {(pid, qid)}, pid);
      } else {
        AnsweredGrows(order[..last], a, pid, qid);
      }
    }
  }

  /** An unanswered question leaves the count short. */
  lemma {:induction false} AnsweredShort(order: seq<Id>, a: set<Field>, pid: Id, qid: Id)
    requires qid in order && (pid, qid) !in a
    ensures AnsweredIn(order, a, pid) < |order|
    decreases |order|
  {
    var last := |order| - 1;
    assert order == order[..last] + [order[last]];
    if order[last] != qid {
      AnsweredShort(order[..last], a, pid, qid);
    }
  }

  lemma {:induction false} AllAnswered(order: seq<Id>, answered: set<Field>, pid: Id)
    ensures AnsweredIn(order, answered, pid) == |order| <==> FirstOpen(order, answered, pid) == |order|
    decreases |order|
  {
    if order != [] {
      AllAnswered(order[..|order| - 1], answered, pid);
    }
  }

  lemma {:induction false} CollectsAll(order: seq<Id>, answers: map<Field, Receipt>, pid: Id)
    ensures |ReceiptsIn(order, answers, pid)| == AnsweredIn(order, answers.Keys, pid)
    decreases |order|
  {
    if order != [] {
      CollectsAll(order[..|order| - 1], answers, pid);
    }
  }

  // ---------- Options in a receipt ----------

  lemma {:induction false} LastIsFirst(options: seq<Choice>, id: Id)
    requires forall i, j :: 0 <= i < j < |options| ==> options[i].id != options[j].id
    ensures PickLast(options, id) == Pick(options, id)
    decreases |options|
  {
    if options != [] {
      var last := |options| - 1;
      LastIsFirst(options[..last], id);
      PickSplit(options[..last], options[last], id);
      assert options == options[..last] + [options[last]];
    }
  }

  lemma {:induction false} PickSplit(front: seq<Choice>, c: Choice, id: Id)
    ensures Pick(front + [c], id) ==
      (if Pick(front, id).Some? then Pick(front, id) else if c.id == id then Some(c) else None)
    decreases |front|
  {
    if front != [] {
      assert (front + [c])[1..] == front[1..] + [c];
      PickSplit(front[1..], c, id);
    } else {
      assert front + [c] == [c];
    }
  }

  /** With distinct options that cover the order, the script stores the order Present shows. */
  lemma {:induction false} ResolvesToOrdered(options: seq<Choice>, order: seq<Id>)
    requires forall i, j :: 0 <= i < j < |options| ==> options[i].id != options[j].id
    requires forall id :: id in order ==> id in Ids(options)
    ensures Resolved(options, order) == Some(Ordered(options, order))
    decreases |order|
  {
    if order != [] {
      var last := |order| - 1;
      assert order[last] in order;
      assert forall id :: id in order[..last] ==> id in order;
      ResolvesToOrdered(options, order[..last]);
      LastIsFirst(options, order[last]);
      var k :| 0 <= k < |options| && Ids(options)[k] == order[last];
      assert options[k] in options;
    }
  }
}
