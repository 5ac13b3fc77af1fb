/** What a snapshot tells a learner, in the terms of the room it was taken from. */
module Snapshots {
  import opened Domain
  import opened Attempt
  import opened Standings
  import opened Room
  import opened RoomInvariant
  import opened RoomSteps
  import opened RoomRuns
  import opened Store
  import opened Protocol
  import opened Acceptance

  // ---------- Standings ----------

  /** The members with a higher score. */
  function Ahead(scores: map<Id, int>, score: int): set<Id> {
    set id | id in scores && scores[id] > score
  }

  /** The members among the first n rows with a higher score. */
  function AheadIn(rows: seq<Row>, score: int, n: nat): set<Id>
    requires n <= |rows|
  {
    if n == 0 then {}
    else AheadIn(rows, score, n - 1) + (if rows[n - 1].score > score then {rows[n - 1].participantId} else {})
  }

  lemma {:induction false} InAheadIn(rows: seq<Row>, score: int, n: nat, id: Id)
    requires n <= |rows|
    ensures id in AheadIn(rows, score, n) <==>
      exists i :: 0 <= i < n && rows[i].participantId == id && rows[i].score > score
    decreases n
  {
    if n > 0 {
      InAheadIn(rows, score, n - 1, id);
    }
  }

  lemma {:induction false} AboveCounts(rows: seq<Row>, score: int, n: nat)
    requires n <= |rows| && Distinct(RowIds(rows))
    ensures Above(rows, score, n) == |AheadIn(rows, score, n)|
    decreases n
  {
    if n > 0 {
      var id := rows[n - 1].participantId;
      AboveCounts(rows, score, n - 1);
      InAheadIn(rows, score, n - 1, id);
      forall i | 0 <= i < n - 1
        ensures rows[i].participantId != id
      {
        assert RowIds(rows)[i] != RowIds(rows)[n - 1];
      }
    }
  }

  /** One row of the standings: the member's own name, score and count, and a rank that is
      one more than the number of members with a higher score. */
  ghost predicate RowTells(s: State, row: Row) {
    && row.participantId in s.participants && row.participantId in s.scores
    && row.displayName == s.participants[row.participantId].name
    && row.score == s.scores[row.participantId]
    && row.answeredCount == s.participants[row.participantId].count
    && row.rank == 1 + |Ahead(s.scores, row.score)|
  }

  /** Best first; of equal scores the larger id first. */
  predicate BestFirst(rows: seq<Row>) {
    forall i, j :: 0 <= i < j < |rows| ==>
      rows[i].score > rows[j].score
      || (rows[i].score == rows[j].score && rows[i].participantId > rows[j].participantId)
  }

  ghost predicate StandingsTold(q: Quiz, s: State, p: Public)
    requires s.meta.Some?
  {
    && p.quizId == q.id && p.epoch == s.meta.value.epoch && p.version == s.meta.value.version
    && p.participantCount == |p.leaderboard| == |s.participants|
    && BestFirst(p.leaderboard)
    && (forall i :: 0 <= i < |p.leaderboard| ==> RowTells(s, p.leaderboard[i]))
    && forall id :: id in s.participants ==>
         exists i :: 0 <= i < |p.leaderboard| && p.leaderboard[i].participantId == id
  }

  /** Row i of the standings is entry i of the listing, with name and count. */
  ghost predicate RowFrom(s: State, e: Entry, row: Row) {
    && e.0 in s.scores && s.scores[e.0] == e.1 && e.0 in s.participants
    && row == Row(e.0, s.participants[e.0].name, e.1, row.rank, s.participants[e.0].count)
  }

  lemma RowsAreListed(s: State, board: seq<Row>)
    requires Consistent(s)
    requires forall k :: 0 <= k < |RevRange(s.scores)| ==> RevRange(s.scores)[k].0 in s.participants
    requires board == Ranked(RowsOf(RevRange(s.scores), s.participants))
    ensures |board| == |RevRange(s.scores)| == |s.participants|
    ensures forall i :: 0 <= i < |board| ==> RowFrom(s, RevRange(s.scores)[i], board[i])
  {
    hide RevRange, RankAt;
    Listed(s.scores);
    assert |s.scores.Keys| == |s.scores| && |s.participants.Keys| == |s.participants|;
  }

  /** Rows for exactly the members, with their scores. */
  ghost predicate Covers(s: State, rows: seq<Row>) {
    && (forall i :: 0 <= i < |rows| ==>
          rows[i].participantId in s.scores && rows[i].score == s.scores[rows[i].participantId])
    && forall id :: id in s.scores ==> exists i :: 0 <= i < |rows| && rows[i].participantId == id
  }

  lemma AheadIsAheadIn(s: State, rows: seq<Row>, score: int)
    requires Covers(s, rows)
    ensures AheadIn(rows, score, |rows|) == Ahead(s.scores, score)
  {
    forall id
      ensures id in Ahead(s.scores, score) <==> id in AheadIn(rows, score, |rows|)
    {
      InAheadIn(rows, score, |rows|, id);
    }
  }

  lemma BoardInListingOrder(s: State, board: seq<Row>)
    requires |board| == |RevRange(s.scores)|
    requires forall i :: 0 <= i < |board| ==> RowFrom(s, RevRange(s.scores)[i], board[i])
    ensures BestFirst(board)
  {
    hide RevRange;
    Listed(s.scores);
    var listed := RevRange(s.scores);
    forall i, j | 0 <= i < j < |board|
      ensures board[i].score > board[j].score
        || (board[i].score == board[j].score && board[i].participantId > board[j].participantId)
    {
      assert Precedes(listed[i], listed[j]);
    }
  }

  lemma BoardCovers(s: State, board: seq<Row>)
    requires |board| == |RevRange(s.scores)|
    requires forall i :: 0 <= i < |board| ==> RowFrom(s, RevRange(s.scores)[i], board[i])
    ensures Covers(s, board)
  {
    hide RevRange;
    var listed := RevRange(s.scores);
    forall i | 0 <= i < |board|
      ensures board[i].participantId in s.scores && board[i].score == s.scores[board[i].participantId]
    {
      assert RowFrom(s, listed[i], board[i]);
    }
    forall id | id in s.scores
      ensures exists i :: 0 <= i < |board| && board[i].participantId == id
    {
      RevRangeCovers(s.scores, id);
      var i :| 0 <= i < |listed| && listed[i] == (id, s.scores[id]);
      assert RowFrom(s, listed[i], board[i]);
    }
  }

  lemma RankIsTold(s: State, rows: seq<Row>, i: nat)
    requires Descending(rows) && i < |rows| && Distinct(RowIds(Ranked(rows))) && Covers(s, Ranked(rows))
    ensures Ranked(rows)[i].rank == 1 + |Ahead(s.scores, Ranked(rows)[i].score)|
  {
    hide RankAt, Above, Ahead, AheadIn, Covers;
    var board := Ranked(rows);
    RankCountsHigherScores(rows, i);
    SameAbove(rows, board, board[i].score, |rows|);
    AboveCounts(board, board[i].score, |board|);
    AheadIsAheadIn(s, board, board[i].score);
  }

  lemma BoardTells(q: Quiz, s: State)
    requires Consistent(s)
    ensures StandingsTold(q, s, PublicOf(q, s))
  {
    hide RevRange, RankAt, Ahead, BestFirst, Ranked, Descending, RowsOf;
    ListedAreMembers(s);
    BoardInOrder(s.scores, s.participants);
    var rows := RowsOf(RevRange(s.scores), s.participants);
    var board := Ranked(rows);
    RowsAreListed(s, board);
    BoardInListingOrder(s, board);
    BoardCovers(s, board);
    forall i | 0 <= i < |board|
      ensures RowTells(s, board[i])
    {
      RankIsTold(s, rows, i);
      assert RowFrom(s, RevRange(s.scores)[i], board[i]);
    }
    forall id | id in s.participants
      ensures exists i :: 0 <= i < |board| && board[i].participantId == id
    {
      assert id in s.scores.Keys;
    }
  }

  /** The standings of a legal room hold every member exactly once, with their own name, score
      and count, best first, and a rank that counts the members with a higher score. */
  lemma StandingsTell(q: Quiz, m: Meta, s: State)
    requires LiveQuiz(q) && s.meta == Some(m) && Inv(q, q.contentVersion, s)
    ensures Consistent(s) && StandingsTold(q, s, PublicOf(q, s))
  {
    hide LiveQuiz, PlansFit, AllProgress, Receipts, Mirrored, OneVersionEach, MetaFits, Timers, PublicOf, StandingsTold;
    BoardTells(q, s);
  }

  // ---------- A member's own part ----------

  /** The learner's receipts: exactly those the room holds, taught, in order of acceptance. */
  ghost predicate HistoryTold(q: Quiz, s: State, who: Id, v: Learner) {
    && (forall x :: x in v.receipts <==>
          exists qid :: (who, qid) in s.answers && x == Teach(q, s.answers[(who, qid)]))
    && Strict(v.receipts)
  }

  /** The question on screen: the first of the plan that is not answered, as the plan presents
      it, under its number; none exactly when all are answered. */
  ghost predicate QuestionTold(q: Quiz, s: State, who: Id, v: Learner)
    requires who in s.attempts
  {
    var order := s.attempts[who].questionOrder;
    && (v.currentQuestion.None? <==> forall qid :: qid in order ==> (who, qid) in s.answers)
    && (v.completed <==> v.currentQuestion.None?)
    && (v.currentQuestion.None? ==> v.questionNumber == 0)
    && (v.currentQuestion.Some? ==>
          && 1 <= v.questionNumber <= |order|
          && var qid := order[v.questionNumber - 1];
          && (who, qid) !in s.answers
          && (forall i :: 0 <= i < v.questionNumber - 1 ==> (who, order[i]) in s.answers)
          && Lookup(q, qid).Some? && qid in s.attempts[who].optionOrders
          && v.currentQuestion.value == Presented(Lookup(q, qid).value, s.attempts[who].optionOrders[qid]))
  }

  ghost predicate FiguresTold(q: Quiz, s: State, who: Id, v: Learner) {
    && v.participantId == who && v.totalQuestions == |q.questions|
    && who in s.participants && who in s.scores
    && v.answeredCount == s.participants[who].count == |v.receipts|
    && v.score == s.scores[who] == SumPoints(v.receipts)
    && v.currentRank == 1 + |Ahead(s.scores, s.scores[who])|
    && v.correctCount == |set x | x in v.receipts && x.correctness|
    && v.totalQuestions > 0 && v.accuracyTenths == RoundHalfUp(v.correctCount, v.totalQuestions)
  }

  lemma {:induction false} ShownHasAll(q: Quiz, order: seq<Id>, answers: map<Field, Receipt>, pid: Id, qid: Id)
    requires qid in order && (pid, qid) in answers
    ensures Teach(q, answers[(pid, qid)]) in Shown(q, order, answers, pid)
    decreases |order|
  {
    hide Teach, Shown;
    var last := |order| - 1;
    ShownUnfolds(q, order, answers, pid);
    if order[last] != qid {
      assert order == order[..last] + [order[last]];
      ShownHasAll(q, order[..last], answers, pid, qid);
    }
  }

  /** A participant answers questions of their plan only. */
  lemma AnsweredIsPlanned(q: Quiz, m: Meta, s: State, who: Id, qid: Id)
    requires LiveQuiz(q) && s.meta == Some(m) && Inv(q, q.contentVersion, s) && (who, qid) in s.answers
    ensures who in s.attempts && qid in s.attempts[who].questionOrder
  {
    hide LiveQuiz, PlansFit, AllProgress, Mirrored, OneVersionEach, MetaFits, Timers, GradedWell, PlanFits;
    FitsOf(q, m, s, (who, qid));
    PlanInRoom(q, s, who);
    PlanListsQuestion(ManifestOf(q), q.contentVersion, s.attempts[who], qid);
  }

  lemma HistoryTells(q: Quiz, m: Meta, s: State, who: Id, v: Learner)
    requires LiveQuiz(q) && s.meta == Some(m) && Inv(q, q.contentVersion, s) && ViewMade(q, s, who, v)
    ensures HistoryTold(q, s, who, v)
  {
    hide LiveQuiz, Inv, Presented, Teach, Shown, Strict;
    ViewStrict(q, m, s, who, v);
    AllHeld(q, m, s, who, v);
    var order := s.attempts[who].questionOrder;
    forall qid | (who, qid) in s.answers
      ensures Teach(q, s.answers[(who, qid)]) in v.receipts
    {
      AnsweredIsPlanned(q, m, s, who, qid);
      ShownHasAll(q, order, s.answers, who, qid);
      SortedMembers(Shown(q, order, s.answers, who), Teach(q, s.answers[(who, qid)]));
    }
  }

  /** The correct ones among the first n receipts. */
  function Right(rs: seq<Receipt>, n: nat): set<Receipt>
    requires n <= |rs|
  {
    set x | x in rs[..n] && x.correctness
  }

  lemma OneMoreRight(rs: seq<Receipt>, n: nat)
    requires Strict(rs) && n < |rs|
    ensures rs[n] !in Right(rs, n)
    ensures Right(rs, n + 1) == Right(rs, n) + (if rs[n].correctness then {rs[n]} else {})
  {
    assert rs[..n + 1] == rs[..n] + [rs[n]];
    forall i | 0 <= i < n
      ensures rs[..n][i] != rs[n]
    {
      assert rs[i].acceptedVersion < rs[n].acceptedVersion;
    }
  }

  lemma {:induction false} CorrectOnes(rs: seq<Receipt>, n: nat)
    requires Strict(rs) && n <= |rs|
    ensures CountCorrect(rs[..n]) == |Right(rs, n)|
    decreases n
  {
    hide Strict, Right;
    if n > 0 {
      CorrectOnes(rs, n - 1);
      OneMoreRight(rs, n - 1);
      assert rs[..n][..n - 1] == rs[..n - 1];
    } else {
      NoneRight(rs);
    }
  }

  lemma NoneRight(rs: seq<Receipt>)
    ensures Right(rs, 0) == {}
  {
  }

  lemma OwnRank(q: Quiz, s: State, who: Id, v: Learner)
    requires ViewMade(q, s, who, v) && who in s.participants && who in s.scores
    ensures v.currentRank == 1 + |Ahead(s.scores, s.scores[who])|
  {
    hide PublicOf, Presented, Ahead, Shown, ByVersion;
    BoardTells(q, s);
    var board := v.public.leaderboard;
    var i :| 0 <= i < |board| && board[i].participantId == who;
    var me := FindRow(board, who).value;
    var j :| 0 <= j < |board| && board[j] == me;
  }

  lemma FiguresTell(q: Quiz, m: Meta, s: State, who: Id, v: Learner)
    requires LiveQuiz(q) && s.meta == Some(m) && Inv(q, q.contentVersion, s) && ViewMade(q, s, who, v)
    ensures FiguresTold(q, s, who, v)
  {
    hide LiveQuiz, Inv, Presented, PublicOf, Shown, ByVersion, Strict, Ahead, RoundHalfUp, AccuracyTenths;
    ViewScore(q, m, s, who, v);
    ViewStrict(q, m, s, who, v);
    OwnRank(q, s, who, v);
    CorrectOnes(v.receipts, |v.receipts|);
    assert v.receipts[..|v.receipts|] == v.receipts;
    AccuracyAgrees(v.correctCount, v.totalQuestions);
  }

  lemma QuestionTells(q: Quiz, m: Meta, s: State, who: Id, v: Learner)
    requires LiveQuiz(q) && s.meta == Some(m) && Inv(q, q.contentVersion, s) && ViewMade(q, s, who, v)
    ensures QuestionTold(q, s, who, v)
  {
    hide LiveQuiz, Inv, Presented, PublicOf, Shown, ByVersion, OwnRow;
    var order := s.attempts[who].questionOrder;
    ProgressInRoom(q, m, s, who);
    FirstOpenSpec(order, s.answers.Keys, who);
    AllAnswered(order, s.answers.Keys, who);
  }

  lemma ProgressInRoom(q: Quiz, m: Meta, s: State, who: Id)
    requires s.meta == Some(m) && Inv(q, q.contentVersion, s) && who in s.participants
    ensures who in s.attempts
    ensures s.participants[who].count == AnsweredIn(s.attempts[who].questionOrder, s.answers.Keys, who)
    ensures s.participants[who].cursor == FirstOpen(s.attempts[who].questionOrder, s.answers.Keys, who)
  {
    hide PlansFit, Receipts, Mirrored, OneVersionEach, MetaFits, Timers;
    ProgressOf(m, s, who);
  }

  /** What a member's state tells: the standings; their own score, count, rank and accuracy;
      all of their receipts and no other, taught, in order of acceptance; and the first
      question of their plan that they have not answered, as their plan presents it. */
  lemma SnapshotTells(q: Quiz, m: Meta, s: State, who: Id)
    requires LiveQuiz(q) && s.meta == Some(m) && Inv(q, q.contentVersion, s) && who in s.participants
    ensures Assembles(q, s, m, who)
    ensures
      var v := View(q, s, who);
      && StandingsTold(q, s, v.public) && who in s.attempts
      && FiguresTold(q, s, who, v) && HistoryTold(q, s, who, v) && QuestionTold(q, s, who, v)
  {
    hide LiveQuiz, Inv, View, ViewMade, PublicOf, StandingsTold, FiguresTold, HistoryTold, QuestionTold;
    ViewParts(q, m, s, who);
    var v := View(q, s, who);
    ViewPublic(q, s, who, v);
    StandingsTell(q, m, s);
    MembersHavePlans(q, s, who);
    FiguresTell(q, m, s, who, v);
    HistoryTells(q, m, s, who, v);
    QuestionTells(q, m, s, who, v);
  }

  /** A snapshot is refused exactly to someone who is no member; a public one never is. */
  lemma SnapshotIsTold(q: Quiz, m: Meta, s: State, cmd: Command, now: int)
    requires LiveQuiz(q) && s.meta == Some(m) && Inv(q, q.contentVersion, s) && cmd.Snapshot?
    ensures
      var (t, reply) := Step(s, q.contentVersion, cmd, now);
      && t == s
      && (reply == Refused(NotJoined) <==> cmd.viewer.Some? && cmd.viewer.value !in s.participants)
      && (cmd.viewer.None? ==>
            reply == Dump(m.epoch, m.version, RevRange(s.scores), s.participants, [], None))
      && (cmd.viewer.Some? && cmd.viewer.value in s.participants ==>
            cmd.viewer.value in s.attempts && reply == DumpFor(s, m, cmd.viewer.value))
  {
    hide Inv, LiveQuiz, Preflight, RoomSound, Step, ReceiptsIn, RevRange;
    if cmd.viewer.Some? {
      DumpReply(q, m, s, cmd, now);
    } else {
      ServedDirectly(q, m, s, cmd, now);
    }
  }
}
