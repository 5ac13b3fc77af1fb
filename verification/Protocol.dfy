/** What the browser accepts of the server (frontend/src/types/protocol.ts). Text is
    opaque here, so the checks left are those on numbers and on consistency. */
module Protocol {
  import opened Domain
  import opened Attempt
  import opened Room
  import opened RoomInvariant
  import opened Store

  // ---------- Questions and receipts ----------

  /** parseQuestion */
  predicate SoundQuestion(v: Question) {
    && |v.options| == 4 && Distinct(Ids(v.options))
    && v.timing.Some? && 1 <= v.timing.value.seconds <= 120
  }

  /** parseReceipt */
  predicate SoundReceipt(r: Receipt) {
    && Whole(r.pointsAwarded, 100) && Whole(r.totalScoreAtAcceptance, 800)
    && Whole(r.acceptedVersion, MAX_SAFE) && Whole(r.questionNumber, 8)
    && SoundQuestion(r.question) && r.vocabulary.Some?
    && r.pointsAwarded == PointsFor(r.correctness, r.timedOut)
    && r.totalScoreAtAcceptance % 50 == 0
    && r.acceptedVersion >= 1 && r.questionNumber >= 1
    && r.correctness == (r.selectedOptionId == r.correctOptionId)
    && r.question.id == r.questionId
    && r.selectedOptionId in Ids(r.question.options)
    && r.correctOptionId in Ids(r.question.options)
  }

  // ---------- Standings ----------

  function RowIds(rows: seq<Row>): (ids: seq<Id>)
    ensures |ids| == |rows|
  {
    seq(|rows|, i requires 0 <= i < |rows| => rows[i].participantId)
  }

  predicate RowInRange(r: Row) {
    Whole(r.score, 800) && Whole(r.rank, 200) && Whole(r.answeredCount, 8)
  }

  predicate ScoreEarnable(r: Row) {
    r.score % 50 == 0 && r.score <= r.answeredCount * 100
  }

  /** Competition ranking of rows that come with the best first. */
  predicate CompetitionRanks(rows: seq<Row>) {
    && Descending(rows)
    && forall i :: 0 <= i < |rows| ==> rows[i].rank == 1 + Above(rows, rows[i].score, |rows|)
  }

  predicate SoundStandings(rows: seq<Row>) {
    CompetitionRanks(rows) && forall i :: 0 <= i < |rows| ==> ScoreEarnable(rows[i])
  }

  predicate RowsInRange(rows: seq<Row>) {
    forall i :: 0 <= i < |rows| ==> RowInRange(rows[i])
  }

  predicate SoundPublic(p: Public) {
    && p.participantCount == |p.leaderboard| <= 200
    && Distinct(RowIds(p.leaderboard))
    && RowsInRange(p.leaderboard) && SoundStandings(p.leaderboard)
    && Whole(p.version, MAX_SAFE)
  }

  /** What the loop of parseSnapshot checks of row k against the row before it. */
  predicate Follows(rows: seq<Row>, k: nat)
    requires k < |rows|
  {
    && rows[k].rank == RankAt(rows, k) && ScoreEarnable(rows[k])
    && (k > 0 ==> rows[k].score <= rows[k - 1].score)
  }

  lemma {:induction false} StepsDescend(rows: seq<Row>, i: nat, j: nat)
    requires i <= j < |rows| && forall k :: 0 <= k < |rows| ==> Follows(rows, k)
    ensures rows[j].score <= rows[i].score
    decreases j
  {
    if i < j {
      StepsDescend(rows, i, j - 1);
      assert Follows(rows, j);
    }
  }

  /** Checking neighbours is enough: the loop accepts exactly the competition rankings. */
  lemma NeighboursSuffice(rows: seq<Row>)
    ensures (forall k :: 0 <= k < |rows| ==> Follows(rows, k)) <==> SoundStandings(rows)
  {
    if forall k :: 0 <= k < |rows| ==> Follows(rows, k) {
      forall i, j | 0 <= i < j < |rows|
        ensures rows[i].score >= rows[j].score
      {
        StepsDescend(rows, i, j);
      }
      forall k | 0 <= k < |rows|
        ensures ScoreEarnable(rows[k]) && rows[k].rank == 1 + Above(rows, rows[k].score, |rows|)
      {
        assert Follows(rows, k);
        RankCountsHigherScores(rows, k);
      }
    }
    if SoundStandings(rows) {
      forall k | 0 <= k < |rows|
        ensures Follows(rows, k)
      {
        RankCountsHigherScores(rows, k);
      }
    }
  }

  method CheckStandings(rows: seq<Row>) returns (ok: bool)
    ensures ok <==> SoundStandings(rows)
  {
    hide SoundStandings;
    NeighboursSuffice(rows);
    var rank := 0;
    for i := 0 to |rows|
      invariant i > 0 ==> rank == RankAt(rows, i - 1)
      invariant forall k :: 0 <= k < i ==> Follows(rows, k)
    {
      if i == 0 || rows[i].score != rows[i - 1].score {
        rank := i + 1;
      }
      if rows[i].rank != rank || rows[i].score % 50 != 0 || rows[i].score > rows[i].answeredCount * 100
        || (i > 0 && rows[i].score > rows[i - 1].score)
      {
        assert !Follows(rows, i);
        return false;
      }
    }
    ok := true;
  }

  method CheckRanges(rows: seq<Row>) returns (ok: bool)
    ensures ok <==> RowsInRange(rows)
  {
    for i := 0 to |rows|
      invariant RowsInRange(rows[..i])
    {
      if !RowInRange(rows[i]) {
        return false;
      }
    }
    assert rows[..|rows|] == rows;
    ok := true;
  }

  /** parseSnapshot */
  method ParseSnapshot(p: Public) returns (ok: bool)
    ensures ok <==> SoundPublic(p)
  {
    hide SoundStandings, RowsInRange;
    var rows := p.leaderboard;
    if |rows| > 200 || !Whole(p.participantCount, 200) || !Whole(p.version, MAX_SAFE) {
      return false;
    }
    var inRange := CheckRanges(rows);
    DistinctSize(RowIds(rows));
    if !inRange || p.participantCount != |rows| || |Members(RowIds(rows))| != p.participantCount {
      return false;
    }
    ok := CheckStandings(rows);
  }

  // ---------- A learner's state ----------

  /** Math.round((correct / total) * 1000): the nearest integer, halves upward. */
  function RoundHalfUp(correct: int, total: int): int
    requires total > 0
  {
    (correct as real / total as real * 1000.0 + 0.5).Floor
  }

  function SumPoints(rs: seq<Receipt>): int {
    if rs == [] then 0 else SumPoints(rs[..|rs| - 1]) + rs[|rs| - 1].pointsAwarded
  }

  function Asked(rs: seq<Receipt>): (ids: seq<Id>)
    ensures |ids| == |rs|
  {
    seq(|rs|, i requires 0 <= i < |rs| => rs[i].questionId)
  }

  function Numbers(rs: seq<Receipt>): (ns: seq<int>)
    ensures |ns| == |rs|
  {
    seq(|rs|, i requires 0 <= i < |rs| => rs[i].questionNumber)
  }

  predicate SoundFields(v: Learner) {
    && 4 <= v.totalQuestions <= 8
    && Whole(v.answeredCount, 8) && Whole(v.score, 800) && Whole(v.correctCount, 8)
    && Whole(v.accuracyTenths, 1000) && Whole(v.currentRank, 200) && Whole(v.questionNumber, 8)
    && (v.currentQuestion.Some? ==> SoundQuestion(v.currentQuestion.value))
    && |v.receipts| <= 8 && forall i :: 0 <= i < |v.receipts| ==> SoundReceipt(v.receipts[i])
  }

  /** The fields agree with the quiz's size and with each other. */
  predicate SoundTotals(v: Learner)
    requires v.totalQuestions > 0
  {
    && v.answeredCount <= v.totalQuestions && v.questionNumber <= v.totalQuestions
    && (forall i :: 0 <= i < |v.receipts| ==> v.receipts[i].questionNumber <= v.totalQuestions)
    && (forall i :: 0 <= i < |v.public.leaderboard| ==> v.public.leaderboard[i].answeredCount <= v.totalQuestions)
    && v.correctCount == CountCorrect(v.receipts)
    && v.accuracyTenths == RoundHalfUp(v.correctCount, v.totalQuestions)
    && FindRow(v.public.leaderboard, v.participantId).Some?
    && v.completed == (v.answeredCount == v.totalQuestions)
    && v.completed == v.currentQuestion.None?
    && (if v.completed then v.questionNumber == 0 else v.questionNumber >= 1)
  }

  /** The learner's own row, receipts and current question agree. */
  predicate SoundProgress(v: Learner)
    requires FindRow(v.public.leaderboard, v.participantId).Some?
  {
    var me := FindRow(v.public.leaderboard, v.participantId).value;
    && Distinct(Asked(v.receipts)) && Distinct(Numbers(v.receipts))
    && me.answeredCount == |v.receipts| && me.answeredCount == v.answeredCount
    && me.score == v.score && me.rank == v.currentRank && me.score == SumPoints(v.receipts)
    && (v.currentQuestion.Some? ==> v.currentQuestion.value.id !in Asked(v.receipts))
    && v.questionNumber !in Numbers(v.receipts)
  }

  /** Receipts of this room in order of acceptance, each with the running total. */
  predicate SoundHistory(v: Learner) {
    && (forall i :: 0 <= i < |v.receipts| ==>
          && v.receipts[i].quizId == v.public.quizId && v.receipts[i].epoch == v.public.epoch
          && 0 < v.receipts[i].acceptedVersion <= v.public.version
          && v.receipts[i].totalScoreAtAcceptance == SumPoints(v.receipts[..i + 1]))
    && (forall i, j :: 0 <= i < j < |v.receipts| ==> v.receipts[i].acceptedVersion < v.receipts[j].acceptedVersion)
  }

  predicate SoundLearner(v: Learner) {
    SoundPublic(v.public) && SoundFields(v) && SoundTotals(v) && SoundProgress(v) && SoundHistory(v)
  }

  ghost predicate HistoryTo(v: Learner, i: nat, acceptedVersion: int, total: int) {
    && i <= |v.receipts| && total == SumPoints(v.receipts[..i])
    && acceptedVersion == (if i == 0 then 0 else v.receipts[i - 1].acceptedVersion)
    && (forall k :: 0 <= k < i ==>
          && v.receipts[k].quizId == v.public.quizId && v.receipts[k].epoch == v.public.epoch
          && 0 < v.receipts[k].acceptedVersion <= v.public.version
          && v.receipts[k].totalScoreAtAcceptance == SumPoints(v.receipts[..k + 1]))
    && (forall j, k :: 0 <= j < k < i ==> v.receipts[j].acceptedVersion < v.receipts[k].acceptedVersion)
  }

  lemma HistoryMoves(v: Learner, i: nat, acceptedVersion: int, total: int)
    requires HistoryTo(v, i, acceptedVersion, total) && i < |v.receipts|
    ensures SumPoints(v.receipts[..i + 1]) == total + v.receipts[i].pointsAwarded
    ensures
      var r := v.receipts[i];
      if r.quizId == v.public.quizId && r.epoch == v.public.epoch
        && acceptedVersion < r.acceptedVersion <= v.public.version
        && r.totalScoreAtAcceptance == total + r.pointsAwarded
      then HistoryTo(v, i + 1, r.acceptedVersion, total + r.pointsAwarded)
      else !SoundHistory(v)
  {
    assert v.receipts[..i + 1][..i] == v.receipts[..i];
    if i > 0 && v.receipts[i].acceptedVersion <= acceptedVersion {
      assert v.receipts[i - 1].acceptedVersion >= v.receipts[i].acceptedVersion;
    }
  }

  /** parseState, after the metadata. */
  method ParseState(v: Learner) returns (ok: bool)
    ensures ok <==> SoundLearner(v)
  {
    hide SoundPublic, SoundHistory, HistoryTo, SoundTotals, SoundProgress;
    var public := ParseSnapshot(v.public);
    if !public || !SoundFields(v) || !SoundTotals(v) {
      return false;
    }
    TotalsFindRow(v);
    if !SoundProgress(v) {
      return false;
    }
    var acceptedVersion, totalScore := 0, 0;
    HistoryBegins(v);
    for i := 0 to |v.receipts|
      invariant HistoryTo(v, i, acceptedVersion, totalScore)
    {
      var receipt := v.receipts[i];
      HistoryMoves(v, i, acceptedVersion, totalScore);
      totalScore := totalScore + receipt.pointsAwarded;
      if receipt.quizId != v.public.quizId || receipt.epoch != v.public.epoch
        || receipt.acceptedVersion > v.public.version || receipt.acceptedVersion <= acceptedVersion
        || receipt.totalScoreAtAcceptance != totalScore
      {
        return false;
      }
      acceptedVersion := receipt.acceptedVersion;
    }
    HistoryEnds(v, acceptedVersion, totalScore);
    ok := true;
  }

  lemma TotalsFindRow(v: Learner)
    requires v.totalQuestions > 0 && SoundTotals(v)
    ensures FindRow(v.public.leaderboard, v.participantId).Some?
  {
  }

  lemma HistoryBegins(v: Learner)
    ensures HistoryTo(v, 0, 0, 0)
  {
  }

  lemma HistoryEnds(v: Learner, acceptedVersion: int, total: int)
    requires HistoryTo(v, |v.receipts|, acceptedVersion, total)
    ensures SoundHistory(v)
  {
  }

  /** The Go server rounds in integers, the browser rounds a quotient: they agree for
      every count and every quiz size. */
  lemma AccuracyAgrees(correct: nat, total: nat)
    requires total > 0
    ensures AccuracyTenths(correct, total) == RoundHalfUp(correct, total)
  {
    var k, h := AccuracyTenths(correct, total), total / 2;
    var t, y := total as real, correct as real / total as real;
    assert correct * 1000 + h == k * total + (correct * 1000 + h) % total;
    assert (k + 1) * total == k * total + total;
    assert y * t == correct as real;
    var x := y * 1000.0 + 0.5;
    Spread(y, t);
    Between(k, x, total);
  }

  lemma Spread(y: real, t: real)
    ensures (y * 1000.0 + 0.5) * t == 1000.0 * (y * t) + t / 2.0
  {
  }

  lemma Between(k: int, x: real, total: nat)
    requires total > 0
    requires (k * total) as real <= x * total as real < ((k + 1) * total) as real
    ensures x.Floor == k
  {
    var t := total as real;
    var low, high := k as real, (k + 1) as real;
    assert low * t <= x * t < high * t;
    if x < low {
      Narrow(x, low, t);
    }
    if high <= x {
      Widen(high, x, t);
    }
    FloorIs(x, k);
  }

  lemma FloorIs(x: real, k: int)
    requires k as real <= x < (k + 1) as real
    ensures x.Floor == k
  {
  }

  lemma Narrow(a: real, b: real, t: real)
    requires a < b && t > 0.0
    ensures a * t < b * t
  {
  }

  lemma Widen(a: real, b: real, t: real)
    requires a <= b && t > 0.0
    ensures a * t <= b * t
  {
  }

  // ---------- What acceptance means ----------

  /** A receipt the browser shows: right exactly when the key was selected, worth 100, 50 or 0,
      about the question it names, of which selection and key are two of four distinct options. */
  predicate ReceiptAgrees(r: Receipt) {
    && (r.correctness <==> r.selectedOptionId == r.correctOptionId)
    && r.pointsAwarded == (if !r.correctness then 0 else if r.timedOut then 50 else 100)
    && r.question.id == r.questionId && |r.question.options| == 4
    && (forall i, j :: 0 <= i < j < 4 ==> r.question.options[i].id != r.question.options[j].id)
    && (exists i :: 0 <= i < 4 && r.question.options[i].id == r.selectedOptionId)
    && (exists i :: 0 <= i < 4 && r.question.options[i].id == r.correctOptionId)
    && r.acceptedVersion >= 1 && 1 <= r.questionNumber <= 8 && r.vocabulary.Some?
  }

  lemma SoundReceiptAgrees(r: Receipt)
    requires SoundReceipt(r)
    ensures ReceiptAgrees(r)
  {
    var ids := Ids(r.question.options);
    assert forall i :: 0 <= i < 4 ==> ids[i] == r.question.options[i].id;
    var i :| 0 <= i < |ids| && ids[i] == r.selectedOptionId;
    var j :| 0 <= j < |ids| && ids[j] == r.correctOptionId;
  }

  lemma {:induction false} PointsAddUp(rs: seq<Receipt>)
    requires forall i :: 0 <= i < |rs| ==> ReceiptAgrees(rs[i])
    ensures SumPoints(rs) % 50 == 0
    ensures 50 * CountCorrect(rs) <= SumPoints(rs) <= 100 * CountCorrect(rs)
    decreases |rs|
  {
    if rs != [] {
      PointsAddUp(rs[..|rs| - 1]);
    }
  }

  /** Standings the browser shows: everyone once, best first, each rank one more than the number
      of rows with a higher score, each score earnable with the answers beside it. */
  predicate StandingsAgree(p: Public) {
    var rows := p.leaderboard;
    && p.participantCount == |rows| <= 200
    && (forall i, j :: 0 <= i < j < |rows| ==>
          rows[i].participantId != rows[j].participantId && rows[i].score >= rows[j].score)
    && (forall i :: 0 <= i < |rows| ==>
          && rows[i].rank == 1 + Above(rows, rows[i].score, |rows|)
          && 0 <= rows[i].score <= 100 * rows[i].answeredCount <= 800 && rows[i].score % 50 == 0)
  }

  lemma SoundPublicAgrees(p: Public)
    requires SoundPublic(p)
    ensures StandingsAgree(p)
  {
    var rows := p.leaderboard;
    forall i, j | 0 <= i < j < |rows|
      ensures rows[i].participantId != rows[j].participantId
    {
      assert RowIds(rows)[i] != RowIds(rows)[j];
    }
    forall i | 0 <= i < |rows|
      ensures 0 <= rows[i].score <= 100 * rows[i].answeredCount <= 800 && rows[i].score % 50 == 0
    {
      assert RowInRange(rows[i]) && ScoreEarnable(rows[i]);
    }
  }

  /** Whatever the server sends, what the browser accepts hangs together: the score is the sum of
      the points, half or all of 100 for each correct receipt; counts, completion, own row and
      rank agree; receipts are of this room, one for each question, in order, with running
      totals; and the question on screen has none. */
  lemma AcceptedHangsTogether(v: Learner)
    requires SoundLearner(v)
    ensures StandingsAgree(v.public)
    ensures forall i :: 0 <= i < |v.receipts| ==>
      && ReceiptAgrees(v.receipts[i])
      && v.receipts[i].quizId == v.public.quizId && v.receipts[i].epoch == v.public.epoch
      && v.receipts[i].acceptedVersion <= v.public.version
      && v.receipts[i].totalScoreAtAcceptance == SumPoints(v.receipts[..i + 1])
      && v.receipts[i].questionNumber <= v.totalQuestions && v.receipts[i].questionNumber != v.questionNumber
      && (v.currentQuestion.Some? ==> v.receipts[i].questionId != v.currentQuestion.value.id)
    ensures forall i, j :: 0 <= i < j < |v.receipts| ==>
      && v.receipts[i].acceptedVersion < v.receipts[j].acceptedVersion
      && v.receipts[i].questionId != v.receipts[j].questionId
      && v.receipts[i].questionNumber != v.receipts[j].questionNumber
    ensures v.answeredCount == |v.receipts| <= v.totalQuestions && v.correctCount == CountCorrect(v.receipts)
    ensures v.score == SumPoints(v.receipts) && 50 * v.correctCount <= v.score <= 100 * v.correctCount
    ensures v.completed <==> v.currentQuestion.None?
    ensures v.completed <==> v.answeredCount == v.totalQuestions
    ensures v.completed ==> v.questionNumber == 0
    ensures !v.completed ==> 1 <= v.questionNumber <= v.totalQuestions
    ensures exists i :: 0 <= i < |v.public.leaderboard| && OwnRowAgrees(v, v.public.leaderboard[i])
  {
    hide SoundPublic, SoundReceipt, StandingsAgree, ReceiptAgrees, RoundHalfUp, SoundQuestion;
    SoundPublicAgrees(v.public);
    forall i | 0 <= i < |v.receipts|
      ensures ReceiptAgrees(v.receipts[i])
    {
      SoundReceiptAgrees(v.receipts[i]);
    }
    PointsAddUp(v.receipts);
    ReceiptsDiffer(v);
    var me := FindRow(v.public.leaderboard, v.participantId).value;
    var k :| 0 <= k < |v.public.leaderboard| && v.public.leaderboard[k] == me;
  }

  predicate OwnRowAgrees(v: Learner, row: Row) {
    && row.participantId == v.participantId && row.score == v.score && row.rank == v.currentRank
    && row.answeredCount == v.answeredCount
  }

  lemma ReceiptsDiffer(v: Learner)
    requires FindRow(v.public.leaderboard, v.participantId).Some? && SoundProgress(v)
    ensures forall i, j :: 0 <= i < j < |v.receipts| ==>
      v.receipts[i].questionId != v.receipts[j].questionId
      && v.receipts[i].questionNumber != v.receipts[j].questionNumber
    ensures forall i :: 0 <= i < |v.receipts| ==>
      && v.receipts[i].questionNumber != v.questionNumber
      && (v.currentQuestion.Some? ==> v.receipts[i].questionId != v.currentQuestion.value.id)
  {
    forall i, j | 0 <= i < j < |v.receipts|
      ensures v.receipts[i].questionId != v.receipts[j].questionId
      ensures v.receipts[i].questionNumber != v.receipts[j].questionNumber
    {
      assert Asked(v.receipts)[i] != Asked(v.receipts)[j];
      assert Numbers(v.receipts)[i] != Numbers(v.receipts)[j];
    }
    forall i | 0 <= i < |v.receipts|
      ensures v.receipts[i].questionNumber != v.questionNumber
      ensures v.currentQuestion.Some? ==> v.receipts[i].questionId != v.currentQuestion.value.id
    {
      assert Numbers(v.receipts)[i] in Numbers(v.receipts);
      assert Asked(v.receipts)[i] in Asked(v.receipts);
    }
  }
}
