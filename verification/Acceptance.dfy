/** Every state the server assembles from a room that satisfies the invariant is one
    the browser accepts. */
module Acceptance {
  import opened Domain
  import opened Attempt
  import opened Standings
  import opened Room
  import opened RoomInvariant
  import opened RoomSteps
  import opened Store
  import opened Protocol

  // ---------- Standings ----------

  ghost predicate Figures(q: Quiz, s: State, pid: Id) {
    && pid in s.participants && pid in s.scores && pid in s.attempts
    && |s.attempts[pid].questionOrder| == |q.questions|
    && 0 <= s.participants[pid].count <= |q.questions| && s.participants[pid].name != ""
    && 0 <= s.scores[pid] <= 100 * s.participants[pid].count && s.scores[pid] % 50 == 0
  }

  lemma MemberFigures(q: Quiz, m: Meta, s: State, pid: Id)
    requires LiveQuiz(q) && s.meta == Some(m) && Inv(q, q.contentVersion, s) && pid in s.participants
    ensures Figures(q, s, pid)
  {
    hide PlanFits, Receipts, Mirrored, OneVersionEach, LiveQuiz, ManifestOf, PointsInSteps, Earned;
    ReceiptsAreSmall(q, m, s);
    ProgressOf(m, s, pid);
    PlanOf(q, q.contentVersion, s, pid);
    FittingLength(ManifestOf(q), q.contentVersion, s.attempts[pid]);
    ManifestCount(q);
    EarnedBounds(s.attempts[pid].questionOrder, s.answers, pid, m.version);
  }

  /** No stored row of a legal room is refused. */
  lemma RowsAreSound(q: Quiz, m: Meta, s: State)
    requires LiveQuiz(q) && s.meta == Some(m) && Inv(q, q.contentVersion, s)
    ensures SameMembers(s) && RowsSound(q, RevRange(s.scores), s.participants)
  {
    hide LiveQuiz, PlansFit, AllProgress, Receipts, Mirrored, OneVersionEach, MetaFits, RevRange;
    var rows := RevRange(s.scores);
    ListedAreMembers(s);
    Listed(s.scores);
    forall i | 0 <= i < |rows|
      ensures RowSound(q, rows[i], s.participants)
    {
      MemberFigures(q, m, s, rows[i].0);
    }
  }

  lemma {:induction false} SameAbove(a: seq<Row>, b: seq<Row>, score: int, n: nat)
    requires n <= |a| == |b| && forall k :: 0 <= k < |a| ==> a[k].score == b[k].score
    ensures Above(a, score, n) == Above(b, score, n)
    decreases n
  {
    if n > 0 {
      SameAbove(a, b, score, n - 1);
    }
  }

  /** Ranking rows that come in order gives competition ranks. */
  lemma RankedIsCompetition(rows: seq<Row>)
    requires Descending(rows)
    ensures CompetitionRanks(Ranked(rows))
  {
    var r := Ranked(rows);
    forall i | 0 <= i < |r|
      ensures r[i].rank == 1 + Above(r, r[i].score, |r|)
    {
      RankCountsHigherScores(rows, i);
      SameAbove(r, rows, r[i].score, |r|);
    }
  }

  lemma BoardInOrder(scores: map<Id, int>, participants: map<Id, Member>)
    requires forall i :: 0 <= i < |RevRange(scores)| ==> RevRange(scores)[i].0 in participants
    ensures Descending(RowsOf(RevRange(scores), participants))
    ensures Distinct(RowIds(Ranked(RowsOf(RevRange(scores), participants))))
  {
    var rows := RevRange(scores);
    Listed(scores);
    ListedIds(scores);
    forall i, j | 0 <= i < j < |rows|
      ensures rows[i].1 >= rows[j].1
    {
      assert Precedes(rows[i], rows[j]);
    }
  }

  lemma RoomNumbers(q: Quiz, m: Meta, s: State)
    requires LiveQuiz(q) && s.meta == Some(m) && Inv(q, q.contentVersion, s)
    ensures 0 <= m.version <= 1800 && |s.scores| <= 200 && 4 <= |q.questions| <= 8
  {
    hide PlansFit, AllProgress, Receipts, Mirrored, OneVersionEach;
    VersionBounded(q, q.contentVersion, m, s);
  }

  /** Row k of the ranked standings. */
  lemma BoardRow(q: Quiz, rows: seq<Entry>, participants: map<Id, Member>, k: nat)
    requires RowsSound(q, rows, participants) && k < |rows| <= 200 && |q.questions| <= 8
    ensures
      var r := Ranked(RowsOf(rows, participants))[k];
      && r == Row(rows[k].0, participants[rows[k].0].name, rows[k].1, r.rank, participants[rows[k].0].count)
      && RowInRange(r) && ScoreEarnable(r) && r.answeredCount <= |q.questions| && 1 <= r.rank
  {
    assert RowSound(q, rows[k], participants);
  }

  /** What the hub sends is what the browser takes: the public snapshot of a legal room
      passes parseSnapshot. */
  lemma PublicIsAccepted(q: Quiz, m: Meta, s: State)
    requires LiveQuiz(q) && s.meta == Some(m) && Inv(q, q.contentVersion, s)
    ensures Consistent(s) && SoundPublic(PublicOf(q, s))
  {
    hide LiveQuiz, Inv, SameMembers, RevRange, Ranked, RowsOf, CompetitionRanks, Distinct, RowsSound, RowInRange,
      ScoreEarnable;
    RowsAreSound(q, m, s);
    RoomNumbers(q, m, s);
    ListedAreMembers(s);
    var listed := RevRange(s.scores);
    var board := Ranked(RowsOf(listed, s.participants));
    assert board == PublicOf(q, s).leaderboard;
    Listed(s.scores);
    BoardInOrder(s.scores, s.participants);
    RankedIsCompetition(RowsOf(listed, s.participants));
    forall k | 0 <= k < |board|
      ensures RowInRange(board[k]) && ScoreEarnable(board[k])
    {
      BoardRow(q, listed, s.participants, k);
    }
  }

  ghost predicate OwnRowIs(q: Quiz, s: State, pid: Id, board: seq<Row>) {
    && pid in s.scores && pid in s.participants && FindRow(board, pid).Some?
    && var me := FindRow(board, pid).value;
    && me.score == s.scores[pid] && me.answeredCount == s.participants[pid].count && 1 <= me.rank <= 200
    && forall i :: 0 <= i < |board| ==> board[i].answeredCount <= |q.questions|
  }

  /** The standings hold the participant's own score and count. */
  lemma OwnRowFound(q: Quiz, m: Meta, s: State, pid: Id)
    requires LiveQuiz(q) && s.meta == Some(m) && Inv(q, q.contentVersion, s) && pid in s.participants
    ensures Consistent(s) && OwnRowIs(q, s, pid, PublicOf(q, s).leaderboard)
  {
    hide LiveQuiz, Inv, SameMembers, RevRange, Ranked, RowsOf, RowsSound, RowInRange, ScoreEarnable;
    MemberFigures(q, m, s, pid);
    RowsAreSound(q, m, s);
    RoomNumbers(q, m, s);
    ListedAreMembers(s);
    var listed := RevRange(s.scores);
    var board := PublicOf(q, s).leaderboard;
    Listed(s.scores);
    forall k | 0 <= k < |board|
      ensures board[k].answeredCount <= |q.questions|
    {
      BoardRow(q, listed, s.participants, k);
    }
    RevRangeCovers(s.scores, pid);
    var k :| 0 <= k < |listed| && listed[k] == (pid, s.scores[pid]);
    BoardRow(q, listed, s.participants, k);
    assert board[k] in board;
    var me := FindRow(board, pid).value;
    var j :| 0 <= j < |board| && board[j] == me;
    BoardRow(q, listed, s.participants, j);
    RowInRangeMeans(board[j]);
    assert listed[j].0 == pid && FromScores(listed, s.scores);
  }

  lemma RowInRangeMeans(r: Row)
    requires RowInRange(r)
    ensures r.rank <= 200
  {
  }

  // ---------- Receipts in order of acceptance ----------

  predicate Strict(rs: seq<Receipt>) {
    forall i, j :: 0 <= i < j < |rs| ==> rs[i].acceptedVersion < rs[j].acceptedVersion
  }

  predicate VersionsDiffer(rs: seq<Receipt>) {
    forall i, j :: 0 <= i < j < |rs| ==> rs[i].acceptedVersion != rs[j].acceptedVersion
  }

  lemma {:induction false} InsertMembers(r: Receipt, rs: seq<Receipt>, x: Receipt)
    ensures x in InsertByVersion(r, rs) <==> x == r || x in rs
    decreases |rs|
  {
    if rs != [] && r.acceptedVersion >= rs[0].acceptedVersion {
      InsertMembers(r, rs[1..], x);
      assert rs == [rs[0]] + rs[1..];
    }
  }

  /** Sorting keeps exactly the same receipts. */
  lemma {:induction false} SortedMembers(rs: seq<Receipt>, x: Receipt)
    ensures x in ByVersion(rs) <==> x in rs
    decreases |rs|
  {
    if rs != [] {
      var last := |rs| - 1;
      SortedMembers(rs[..last], x);
      InsertMembers(rs[last], ByVersion(rs[..last]), x);
      assert rs == rs[..last] + [rs[last]];
    }
  }

  lemma {:induction false} InsertKeepsStrict(r: Receipt, rs: seq<Receipt>)
    requires Strict(rs) && forall i :: 0 <= i < |rs| ==> rs[i].acceptedVersion != r.acceptedVersion
    ensures Strict(InsertByVersion(r, rs))
    decreases |rs|
  {
    if rs != [] && r.acceptedVersion > rs[0].acceptedVersion {
      InsertKeepsStrict(r, rs[1..]);
      var t := InsertByVersion(r, rs[1..]);
      forall j | 0 <= j < |t|
        ensures rs[0].acceptedVersion < t[j].acceptedVersion
      {
        InsertMembers(r, rs[1..], t[j]);
      }
    }
  }

  lemma {:induction false} SortedIsStrict(rs: seq<Receipt>)
    requires VersionsDiffer(rs)
    ensures Strict(ByVersion(rs))
    decreases |rs|
  {
    if rs != [] {
      var last := |rs| - 1;
      var front := ByVersion(rs[..last]);
      SortedIsStrict(rs[..last]);
      forall i | 0 <= i < |front|
        ensures front[i].acceptedVersion != rs[last].acceptedVersion
      {
        SortedMembers(rs[..last], front[i]);
        var k :| 0 <= k < last && rs[..last][k] == front[i];
      }
      InsertKeepsStrict(rs[last], front);
    }
  }

  /** Points of the receipts accepted at version v or before. */
  function SumUpTo(rs: seq<Receipt>, v: int): int {
    if rs == [] then 0
    else
      var r := rs[|rs| - 1];
      SumUpTo(rs[..|rs| - 1], v) + (if r.acceptedVersion <= v then r.pointsAwarded else 0)
  }

  lemma {:induction false} SumCons(r: Receipt, rs: seq<Receipt>, v: int)
    ensures SumUpTo([r] + rs, v) == SumUpTo(rs, v) + (if r.acceptedVersion <= v then r.pointsAwarded else 0)
    decreases |rs|
  {
    var last := |rs| - 1;
    if rs != [] {
      SumCons(r, rs[..last], v);
      assert ([r] + rs)[..|rs|] == [r] + rs[..last];
    } else {
      assert ([r] + rs)[..0] == [];
    }
  }

  lemma {:induction false} InsertSum(r: Receipt, rs: seq<Receipt>, v: int)
    ensures SumUpTo(InsertByVersion(r, rs), v)
      == SumUpTo(rs, v) + (if r.acceptedVersion <= v then r.pointsAwarded else 0)
    decreases |rs|
  {
    if rs == [] || r.acceptedVersion < rs[0].acceptedVersion {
      SumCons(r, rs, v);
    } else {
      InsertSum(r, rs[1..], v);
      SumCons(rs[0], InsertByVersion(r, rs[1..]), v);
      SumCons(rs[0], rs[1..], v);
      assert rs == [rs[0]] + rs[1..];
    }
  }

  lemma {:induction false} SortedSum(rs: seq<Receipt>, v: int)
    ensures SumUpTo(ByVersion(rs), v) == SumUpTo(rs, v)
    decreases |rs|
  {
    if rs != [] {
      SortedSum(rs[..|rs| - 1], v);
      InsertSum(rs[|rs| - 1], ByVersion(rs[..|rs| - 1]), v);
    }
  }

  /** In order of acceptance the sum up to a version is a running total. */
  lemma {:induction false} PrefixSum(rs: seq<Receipt>, k: nat, v: int)
    requires k <= |rs|
    requires forall i :: 0 <= i < k ==> rs[i].acceptedVersion <= v
    requires forall i :: k <= i < |rs| ==> rs[i].acceptedVersion > v
    ensures SumUpTo(rs, v) == SumPoints(rs[..k])
    decreases |rs|
  {
    if rs != [] {
      var last := |rs| - 1;
      if k == |rs| {
        PrefixSum(rs[..last], last, v);
        assert rs[..last][..last] == rs[..last] == rs[..k][..last];
        assert rs[..k] == rs;
      } else {
        PrefixSum(rs[..last], k, v);
        assert rs[..last][..k] == rs[..k];
      }
    } else {
      assert rs[..k] == [];
    }
  }

  // ---------- A learner's receipts ----------

  /** The receipts of a snapshot before they are sorted. */
  function Shown(q: Quiz, order: seq<Id>, answers: map<Field, Receipt>, pid: Id): seq<Receipt> {
    TaughtAll(q, ReceiptsIn(order, answers, pid))
  }

  /** The receipt is the learner's stored one for its question, taught. */
  predicate Held(q: Quiz, order: seq<Id>, answers: map<Field, Receipt>, pid: Id, x: Receipt) {
    && x.questionId in order && (pid, x.questionId) in answers
    && x == Teach(q, answers[(pid, x.questionId)])
  }

  predicate KeyedByQuestion(answers: map<Field, Receipt>) {
    forall f :: f in answers ==> answers[f].questionId == f.1
  }

  lemma {:induction false} ShownUnfolds(q: Quiz, order: seq<Id>, answers: map<Field, Receipt>, pid: Id)
    requires order != []
    ensures
      var last := |order| - 1;
      var front := Shown(q, order[..last], answers, pid);
      Shown(q, order, answers, pid) ==
        if (pid, order[last]) in answers then front + [Teach(q, answers[(pid, order[last])])] else front
  {
    hide Teach;
    var last := |order| - 1;
    var front := ReceiptsIn(order[..last], answers, pid);
    if (pid, order[last]) in answers {
      var r := answers[(pid, order[last])];
      assert ReceiptsIn(order, answers, pid) == front + [r];
      assert (front + [r])[..|front|] == front;
      assert TaughtAll(q, front + [r]) == TaughtAll(q, front) + [Teach(q, r)];
    } else {
      assert ReceiptsIn(order, answers, pid) == front + [] == front;
    }
  }

  lemma {:induction false} ShownAreHeld(q: Quiz, order: seq<Id>, answers: map<Field, Receipt>, pid: Id, x: Receipt)
    requires KeyedByQuestion(answers) && x in Shown(q, order, answers, pid)
    ensures Held(q, order, answers, pid, x)
    decreases |order|
  {
    hide Shown;
    if order == [] {
      NothingShown(q, answers, pid);
    } else {
      var last := |order| - 1;
      var front := Shown(q, order[..last], answers, pid);
      ShownUnfolds(q, order, answers, pid);
      assert order == order[..last] + [order[last]];
      if x in front {
        ShownAreHeld(q, order[..last], answers, pid, x);
      } else {
        assert order[last] in order;
      }
    }
  }

  lemma NothingShown(q: Quiz, answers: map<Field, Receipt>, pid: Id)
    ensures Shown(q, [], answers, pid) == []
  {
  }

  lemma {:induction false} ShownVersionsDiffer(q: Quiz, order: seq<Id>, s: State, pid: Id)
    requires Distinct(order) && KeyedByQuestion(s.answers) && OneVersionEach(s)
    ensures VersionsDiffer(Shown(q, order, s.answers, pid))
    decreases |order|
  {
    hide Shown, Distinct;
    if order == [] {
      NothingShown(q, s.answers, pid);
    } else {
      var last := |order| - 1;
      var front := Shown(q, order[..last], s.answers, pid);
      DistinctInit(order);
      ShownVersionsDiffer(q, order[..last], s, pid);
      ShownUnfolds(q, order, s.answers, pid);
      forall i | 0 <= i < |front| && (pid, order[last]) in s.answers
        ensures front[i].acceptedVersion != s.answers[(pid, order[last])].acceptedVersion
      {
        ShownAreHeld(q, order[..last], s.answers, pid, front[i]);
      }
    }
  }

  lemma {:induction false} ShownSum(q: Quiz, order: seq<Id>, answers: map<Field, Receipt>, pid: Id, v: int)
    ensures SumUpTo(Shown(q, order, answers, pid), v) == Earned(order, answers, pid, v)
    decreases |order|
  {
    hide Shown;
    if order == [] {
      NothingShown(q, answers, pid);
    } else {
      var last := |order| - 1;
      var front := Shown(q, order[..last], answers, pid);
      ShownSum(q, order[..last], answers, pid, v);
      ShownUnfolds(q, order, answers, pid);
      if (pid, order[last]) in answers {
        assert (front + [Teach(q, answers[(pid, order[last])])])[..|front|] == front;
      }
    }
  }

  // ---------- Each receipt ----------

  lemma ReceiptKeys(q: Quiz, m: Meta, s: State)
    requires Receipts(q, m, s)
    ensures KeyedByQuestion(s.answers)
  {
    forall f | f in s.answers
      ensures s.answers[f].questionId == f.1
    {
      assert ReceiptFits(q, m, s, f);
    }
  }

  lemma FitsOf(q: Quiz, m: Meta, s: State, f: Field)
    requires Receipts(q, m, s) && f in s.answers
    ensures ReceiptFits(q, m, s, f)
  {
  }

  /** The question of a stored receipt, taught, is whole. */
  lemma TaughtQuestion(q: Quiz, plan: Plan, r: Receipt)
    requires LiveQuiz(q) && PlanFits(ManifestOf(q), q.contentVersion, plan) && r.questionId in ManifestOf(q)
    requires Lookup(q, r.questionId).Some? && GradedWell(Lookup(q, r.questionId).value, plan, r)
    ensures
      var t := Teach(q, r);
      && SoundQuestion(t.question) && t.vocabulary.Some? && t.question.id == t.questionId
      && t.selectedOptionId in Ids(t.question.options) && t.correctOptionId in Ids(t.question.options)
  {
    hide PlanFits, LiveQuiz, ManifestOf, Presented, Rearranged, Lookup;
    PresentedWhole(q, plan, r.questionId);
    EntryValid(q, r.questionId);
    TaughtQuestionIsPresented(q, plan.optionOrders[r.questionId], r);
    PresentedTiming(Lookup(q, r.questionId).value, plan.optionOrders[r.questionId]);
  }

  /** A stored receipt, taught, is one parseReceipt accepts. */
  lemma TaughtIsSound(q: Quiz, m: Meta, s: State, f: Field)
    requires LiveQuiz(q) && s.meta == Some(m) && Inv(q, q.contentVersion, s) && f in s.answers
    ensures SoundReceipt(Teach(q, s.answers[f]))
  {
    hide PlanFits, LiveQuiz, Inv, ManifestOf, Earned, Lookup, PointsInSteps, SoundQuestion, Receipts;
    var r := s.answers[f];
    KeysOf(q, m, s);
    FitsOf(q, m, s, f);
    var order := s.attempts[f.0].questionOrder;
    PlanInRoom(q, s, f.0);
    TaughtQuestion(q, s.attempts[f.0], r);
    RoomNumbers(q, m, s);
    ReceiptsAreSmall(q, m, s);
    EarnedBounds(order, s.answers, f.0, r.acceptedVersion);
    PlanListsQuestion(ManifestOf(q), q.contentVersion, s.attempts[f.0], f.1);
    FittingLength(ManifestOf(q), q.contentVersion, s.attempts[f.0]);
    ManifestRange(q);
    PositionSpec(order, f.1);
  }

  lemma PresentedTiming(g: Graded, order: seq<Id>)
    requires ValidGraded(g)
    ensures Presented(g, order).timing == Some(g.study.timing) && 1 <= g.study.timing.seconds <= 120
  {
  }

  // ---------- The whole state ----------

  /** The script's reply to a participant's snapshot. */
  function DumpFor(s: State, m: Meta, pid: Id): Reply
    requires pid in s.attempts
  {
    Dump(m.epoch, m.version, RevRange(s.scores), s.participants,
         ReceiptsIn(s.attempts[pid].questionOrder, s.answers, pid), Some(s.attempts[pid]))
  }

  lemma OpenQuestion(q: Quiz, m: Meta, s: State, pid: Id)
    requires LiveQuiz(q) && s.meta == Some(m) && Inv(q, q.contentVersion, s) && pid in s.participants
    ensures pid in s.attempts
    ensures
      var order, member := s.attempts[pid].questionOrder, s.participants[pid];
      member.count != |order| ==>
        0 <= member.cursor < |order| && (pid, order[member.cursor]) !in s.answers
  {
    hide PlansFit, Receipts, Mirrored, OneVersionEach, LiveQuiz, MetaFits, Earned;
    ProgressOf(m, s, pid);
    AllAnswered(s.attempts[pid].questionOrder, s.answers.Keys, pid);
    FirstOpenSpec(s.attempts[pid].questionOrder, s.answers.Keys, pid);
  }

  ghost predicate Assembles(q: Quiz, s: State, m: Meta, pid: Id) {
    && pid in s.attempts && pid in s.scores && pid in s.participants
    && LiveQuiz(q) && Consistent(s) && DumpSound(q, pid, DumpFor(s, m, pid))
    && PublicFrom(q, DumpFor(s, m, pid)) == PublicOf(q, s)
    && OwnRowIs(q, s, pid, PublicOf(q, s).leaderboard)
  }

  /** The server never answers a member of a legal room with an error. */
  lemma SnapshotAssembles(q: Quiz, m: Meta, s: State, pid: Id)
    requires LiveQuiz(q) && s.meta == Some(m) && Inv(q, q.contentVersion, s) && pid in s.participants
    ensures Assembles(q, s, m, pid)
  {
    hide LiveQuiz, Inv, SameMembers, RevRange, Ranked, RowsOf, RowsSound, PlanFits, ReceiptsIn;
    RowsAreSound(q, m, s);
    OwnRowFound(q, m, s, pid);
    MemberFigures(q, m, s, pid);
    OpenQuestion(q, m, s, pid);
    ListedAreMembers(s);
    PlanInRoom(q, s, pid);
  }

  lemma PlanInRoom(q: Quiz, s: State, pid: Id)
    requires Inv(q, q.contentVersion, s) && pid in s.attempts
    ensures PlanFits(ManifestOf(q), q.contentVersion, s.attempts[pid])
  {
    hide PlanFits;
  }

  /** What the learner sees: the state the server assembles. */
  ghost function View(q: Quiz, s: State, pid: Id): Learner
    requires s.meta.Some? && Assembles(q, s, s.meta.value, pid)
  {
    LearnerFrom(q, pid, DumpFor(s, s.meta.value, pid))
  }

  ghost predicate ViewMade(q: Quiz, s: State, pid: Id, v: Learner) {
    && pid in s.attempts && pid in s.scores && pid in s.participants && Consistent(s)
    && var order, member := s.attempts[pid].questionOrder, s.participants[pid];
    && v.public == PublicOf(q, s) && v.totalQuestions == |q.questions| > 0 && v.participantId == pid
    && v.answeredCount == member.count && v.score == s.scores[pid]
    && v.currentRank == OwnRow(v.public.leaderboard, pid).rank
    && v.completed == (member.count == |order|)
    && v.receipts == ByVersion(Shown(q, order, s.answers, pid))
    && v.correctCount == CountCorrect(v.receipts)
    && v.accuracyTenths == AccuracyTenths(v.correctCount, v.totalQuestions)
    && v.questionNumber == (if v.completed then 0 else member.cursor + 1)
    && v.completed == v.currentQuestion.None?
    && (!v.completed ==>
          && 0 <= member.cursor < |order| && Lookup(q, order[member.cursor]).Some?
          && order[member.cursor] in s.attempts[pid].optionOrders
          && v.currentQuestion.value
            == Presented(Lookup(q, order[member.cursor]).value, s.attempts[pid].optionOrders[order[member.cursor]]))
  }

  lemma ViewParts(q: Quiz, m: Meta, s: State, pid: Id)
    requires LiveQuiz(q) && s.meta == Some(m) && Inv(q, q.contentVersion, s) && pid in s.participants
    ensures Assembles(q, s, m, pid) && ViewMade(q, s, pid, View(q, s, pid))
  {
    hide LiveQuiz, Inv, SameMembers, RevRange, Ranked, RowsOf, RowsSound, PlanFits, ReceiptsIn, PublicFrom, Presented,
      Lookup;
    SnapshotAssembles(q, m, s, pid);
    RoomNumbers(q, m, s);
    OpenQuestion(q, m, s, pid);
    PlanInRoom(q, s, pid);
    if s.participants[pid].count != |s.attempts[pid].questionOrder| {
      PlannedQuestionKnown(q, s.attempts[pid], s.participants[pid].cursor);
    }
  }

  lemma AllHeld(q: Quiz, m: Meta, s: State, pid: Id, v: Learner)
    requires LiveQuiz(q) && s.meta == Some(m) && Inv(q, q.contentVersion, s) && ViewMade(q, s, pid, v)
    ensures forall x :: x in v.receipts ==> Held(q, s.attempts[pid].questionOrder, s.answers, pid, x)
  {
    hide LiveQuiz, Inv, Held, Shown;
    KeysOf(q, m, s);
    var rs := Shown(q, s.attempts[pid].questionOrder, s.answers, pid);
    forall x | x in ByVersion(rs)
      ensures Held(q, s.attempts[pid].questionOrder, s.answers, pid, x)
    {
      SortedMembers(rs, x);
      ShownAreHeld(q, s.attempts[pid].questionOrder, s.answers, pid, x);
    }
  }

  lemma KeysOf(q: Quiz, m: Meta, s: State)
    requires s.meta == Some(m) && Inv(q, q.contentVersion, s)
    ensures KeyedByQuestion(s.answers) && OneVersionEach(s) && Receipts(q, m, s)
  {
    hide Receipts, OneVersionEach;
    ReceiptKeys(q, m, s);
  }

  lemma ViewStrict(q: Quiz, m: Meta, s: State, pid: Id, v: Learner)
    requires LiveQuiz(q) && s.meta == Some(m) && Inv(q, q.contentVersion, s) && ViewMade(q, s, pid, v)
    ensures Strict(v.receipts)
  {
    hide LiveQuiz, Inv, Shown, Strict, VersionsDiffer, OneVersionEach, KeyedByQuestion, Distinct;
    KeysOf(q, m, s);
    PlanInRoom(q, s, pid);
    ShownVersionsDiffer(q, s.attempts[pid].questionOrder, s, pid);
    SortedIsStrict(Shown(q, s.attempts[pid].questionOrder, s.answers, pid));
  }

  /** The k-th receipt shown: stored, of this room, and with the points of all receipts
      up to it as its total. */
  lemma ViewReceipt(q: Quiz, m: Meta, s: State, pid: Id, v: Learner, k: nat)
    requires LiveQuiz(q) && s.meta == Some(m) && Inv(q, q.contentVersion, s) && ViewMade(q, s, pid, v)
    requires k < |v.receipts|
    ensures
      var rs, order := v.receipts, s.attempts[pid].questionOrder;
      var r := rs[k];
      && SoundReceipt(r) && r.quizId == q.id && r.epoch == m.epoch && 1 <= r.acceptedVersion <= m.version
      && r.totalScoreAtAcceptance == SumPoints(rs[..k + 1])
      && r.questionId in order && (pid, r.questionId) in s.answers
      && r.questionNumber == Position(order, r.questionId)
  {
    hide LiveQuiz, Inv, Shown, GradedWell, SoundReceipt, KeyedByQuestion, OneVersionEach, Receipts;
    AllHeld(q, m, s, pid, v);
    KeysOf(q, m, s);
    var rs, order := v.receipts, s.attempts[pid].questionOrder;
    var r := rs[k];
    assert r in rs;
    FitsOf(q, m, s, (pid, r.questionId));
    GradedNumber(q, s.attempts[pid], s.answers[(pid, r.questionId)]);
    TaughtIsSound(q, m, s, (pid, r.questionId));
    ViewStrict(q, m, s, pid, v);
    PrefixSum(rs, k + 1, r.acceptedVersion);
    SortedSum(Shown(q, order, s.answers, pid), r.acceptedVersion);
    ShownSum(q, order, s.answers, pid, r.acceptedVersion);
  }

  lemma GradedNumber(q: Quiz, plan: Plan, r: Receipt)
    requires Lookup(q, r.questionId).Some? && GradedWell(Lookup(q, r.questionId).value, plan, r)
    ensures r.questionNumber == Position(plan.questionOrder, r.questionId)
  {
  }

  lemma ViewScore(q: Quiz, m: Meta, s: State, pid: Id, v: Learner)
    requires LiveQuiz(q) && s.meta == Some(m) && Inv(q, q.contentVersion, s) && ViewMade(q, s, pid, v)
    ensures pid in s.scores && SumPoints(v.receipts) == s.scores[pid]
    ensures |v.receipts| == s.participants[pid].count
  {
    hide LiveQuiz, Inv, SoundReceipt;
    var rs, order := v.receipts, s.attempts[pid].questionOrder;
    forall k | 0 <= k < |rs|
      ensures rs[k].acceptedVersion <= m.version
    {
      ViewReceipt(q, m, s, pid, v, k);
    }
    PrefixSum(rs, |rs|, m.version);
    assert rs[..|rs|] == rs;
    SortedSum(Shown(q, order, s.answers, pid), m.version);
    ShownSum(q, order, s.answers, pid, m.version);
    CollectsAll(order, s.answers, pid);
    ScoreIsEarned(q, m, s, pid);
  }

  lemma ScoreIsEarned(q: Quiz, m: Meta, s: State, pid: Id)
    requires s.meta == Some(m) && Inv(q, q.contentVersion, s) && pid in s.participants
    ensures Progress(m, s, pid)
  {
    hide Progress;
  }

  lemma NumbersDiffer(order: seq<Id>, a: Id, b: Id)
    requires a in order && b in order && Position(order, a) == Position(order, b)
    ensures a == b
  {
    PositionSpec(order, a);
    PositionSpec(order, b);
  }

  /** Equal question ids would be the same stored receipt, with one version. */
  lemma ViewDistinct(q: Quiz, m: Meta, s: State, pid: Id, v: Learner)
    requires LiveQuiz(q) && s.meta == Some(m) && Inv(q, q.contentVersion, s) && ViewMade(q, s, pid, v)
    ensures Distinct(Asked(v.receipts)) && Distinct(Numbers(v.receipts))
  {
    hide LiveQuiz, Inv, SoundReceipt;
    AllHeld(q, m, s, pid, v);
    ViewStrict(q, m, s, pid, v);
    var rs, order := v.receipts, s.attempts[pid].questionOrder;
    forall i, j | 0 <= i < j < |rs|
      ensures rs[i].questionId != rs[j].questionId && rs[i].questionNumber != rs[j].questionNumber
    {
      assert rs[i] in rs && rs[j] in rs;
      ViewReceipt(q, m, s, pid, v, i);
      ViewReceipt(q, m, s, pid, v, j);
      if rs[i].questionNumber == rs[j].questionNumber {
        NumbersDiffer(order, rs[i].questionId, rs[j].questionId);
      }
    }
  }

  /** The question on screen is sound and has no receipt. */
  lemma ViewCurrent(q: Quiz, m: Meta, s: State, pid: Id, v: Learner)
    requires LiveQuiz(q) && s.meta == Some(m) && Inv(q, q.contentVersion, s) && ViewMade(q, s, pid, v)
    ensures
        && (v.currentQuestion.Some? ==>
            SoundQuestion(v.currentQuestion.value) && v.currentQuestion.value.id !in Asked(v.receipts)
            && 1 <= v.questionNumber <= |q.questions|)
      && v.questionNumber !in Numbers(v.receipts)
  {
    hide LiveQuiz, Inv, SoundReceipt, PlanFits, Presented, Lookup, ManifestOf;
    OpenQuestion(q, m, s, pid);
    MemberFigures(q, m, s, pid);
    var plan := s.attempts[pid];
    if !v.completed {
      var qid := plan.questionOrder[s.participants[pid].cursor];
      PlanInRoom(q, s, pid);
      PlannedQuestionKnown(q, plan, s.participants[pid].cursor);
      PresentedWhole(q, plan, qid);
      EntryValid(q, qid);
      PresentedTiming(Lookup(q, qid).value, plan.optionOrders[qid]);
    }
    forall k | 0 <= k < |v.receipts|
      ensures v.receipts[k].questionNumber != v.questionNumber
      ensures v.currentQuestion.Some? ==> v.receipts[k].questionId != v.currentQuestion.value.id
    {
      ViewReceipt(q, m, s, pid, v, k);
      PositionSpec(plan.questionOrder, v.receipts[k].questionId);
    }
  }

  lemma ViewFields(q: Quiz, m: Meta, s: State, pid: Id, v: Learner)
    requires LiveQuiz(q) && s.meta == Some(m) && Inv(q, q.contentVersion, s) && ViewMade(q, s, pid, v)
    ensures SoundFields(v)
  {
    hide LiveQuiz, Inv, SoundReceipt, SoundQuestion, Presented, Lookup, PublicOf;
    ViewScore(q, m, s, pid, v);
    ViewCurrent(q, m, s, pid, v);
    MemberFigures(q, m, s, pid);
    OwnRowFound(q, m, s, pid);
    RoomNumbers(q, m, s);
    forall i | 0 <= i < |v.receipts|
      ensures SoundReceipt(v.receipts[i])
    {
      ViewReceipt(q, m, s, pid, v, i);
    }
  }

  lemma ViewTotals(q: Quiz, m: Meta, s: State, pid: Id, v: Learner)
    requires LiveQuiz(q) && s.meta == Some(m) && Inv(q, q.contentVersion, s) && ViewMade(q, s, pid, v)
    ensures v.totalQuestions > 0 && SoundTotals(v)
    ensures SoundProgress(v)
  {
    hide LiveQuiz, Inv, SoundReceipt, SoundQuestion, Presented, Lookup, PublicOf, RoundHalfUp, AccuracyTenths;
    ViewScore(q, m, s, pid, v);
    ViewCurrent(q, m, s, pid, v);
    ViewDistinct(q, m, s, pid, v);
    MemberFigures(q, m, s, pid);
    OwnRowFound(q, m, s, pid);
    AccuracyAgrees(v.correctCount, v.totalQuestions);
    forall i | 0 <= i < |v.receipts|
      ensures v.receipts[i].questionNumber <= v.totalQuestions
    {
      ViewReceipt(q, m, s, pid, v, i);
    }
  }

  lemma ViewHistory(q: Quiz, m: Meta, s: State, pid: Id, v: Learner)
    requires LiveQuiz(q) && s.meta == Some(m) && Inv(q, q.contentVersion, s) && ViewMade(q, s, pid, v)
    ensures SoundHistory(v)
  {
    hide LiveQuiz, Inv, SoundReceipt, Presented, Lookup;
    ViewStrict(q, m, s, pid, v);
    forall i | 0 <= i < |v.receipts|
      ensures v.receipts[i].quizId == v.public.quizId && v.receipts[i].epoch == v.public.epoch
      ensures 0 < v.receipts[i].acceptedVersion <= v.public.version
      ensures v.receipts[i].totalScoreAtAcceptance == SumPoints(v.receipts[..i + 1])
    {
      ViewReceipt(q, m, s, pid, v, i);
    }
  }

  /** Every state the server sends to a member of a legal room passes parseState: ranks,
      sums, progress against receipts, accuracy, and receipts in order of acceptance
      with running totals. */
  lemma SnapshotIsAccepted(q: Quiz, m: Meta, s: State, pid: Id)
    requires LiveQuiz(q) && s.meta == Some(m) && Inv(q, q.contentVersion, s) && pid in s.participants
    ensures Assembles(q, s, m, pid) && SoundLearner(View(q, s, pid))
  {
    hide LiveQuiz, Inv, View, ViewMade, SoundPublic, SoundFields, SoundTotals, SoundProgress, SoundHistory;
    ViewParts(q, m, s, pid);
    var v := View(q, s, pid);
    ViewPublic(q, s, pid, v);
    PublicIsAccepted(q, m, s);
    ViewFields(q, m, s, pid, v);
    ViewTotals(q, m, s, pid, v);
    ViewHistory(q, m, s, pid, v);
  }

  lemma ViewPublic(q: Quiz, s: State, pid: Id, v: Learner)
    requires ViewMade(q, s, pid, v)
    ensures Consistent(s) && v.public == PublicOf(q, s)
  {
  }

  lemma DumpReply(q: Quiz, m: Meta, s: State, cmd: Command, now: int)
    requires LiveQuiz(q) && s.meta == Some(m) && Inv(q, q.contentVersion, s)
    requires cmd.Snapshot? && cmd.viewer.Some?
    ensures cmd.viewer.value in s.participants ==>
      cmd.viewer.value in s.attempts
      && Step(s, q.contentVersion, cmd, now) == (s, DumpFor(s, m, cmd.viewer.value))
    ensures cmd.viewer.value !in s.participants ==> Step(s, q.contentVersion, cmd, now) == (s, Refused(NotJoined))
  {
    hide Inv, LiveQuiz, Preflight, RoomSound, Step, RevRange, ReceiptsIn;
    ServedDirectly(q, m, s, cmd, now);
    SnapshotOutcome(q, m, s, cmd);
  }

  /** A request's life on the server: the script's reply, assembled, is the view, and
      the browser accepts it. */
  method ReadState(q: Quiz, ghost s: State, pid: Id, reply: Reply, ghost now: int)
      returns (v: Option<Learner>, accepted: bool)
    requires LiveQuiz(q) && s.meta.Some? && Inv(q, q.contentVersion, s) && pid in s.participants
    requires reply == Step(s, q.contentVersion, Snapshot(Some(pid)), now).1
    ensures Assembles(q, s, s.meta.value, pid) && v == Some(View(q, s, pid)) && accepted
  {
    hide LiveQuiz, Inv, SoundLearner, Step, DumpFor;
    ghost var m := s.meta.value;
    DumpReply(q, m, s, Snapshot(Some(pid)), now);
    SnapshotAssembles(q, m, s, pid);
    v := Assemble(q, pid, reply);
    SnapshotIsAccepted(q, m, s, pid);
    accepted := ParseState(v.value);
  }
}
