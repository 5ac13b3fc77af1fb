/** The Go store around the script (backend/internal/store/store.go): which commands it
    issues and how it assembles a learner's state from a snapshot reply. */
module Store {
  import opened Domain
  import opened Attempt
  import opened Standings
  import opened Room
  import opened RoomInvariant

  // ---------- Commands ----------

  datatype Prepared = Issue(cmd: Command) | Decline(code: Refusal)

  datatype Refusal = Malformed | UnknownQuestion | InvalidOption | BadDuration

  /** Store.Answer up to the script: the option must be one of the question's, and the
      points are decided here. `wellFormed` says that submission id and epoch have the
      right shape. */
  method PrepareAnswer(q: Quiz, pid: Id, epoch: Id, rid: Id, wellFormed: bool, qid: Id, option: Id)
      returns (p: Prepared)
    requires LiveQuiz(q)
    ensures p.Issue? ==>
      Issued(q, p.cmd) && p.cmd.Answer? && p.cmd.pid == pid && p.cmd.epoch == epoch
      && p.cmd.rid == rid && p.cmd.qid == qid && p.cmd.option == option
    ensures p == Decline(Malformed) <==> !wellFormed
    ensures p == Decline(UnknownQuestion) <==> wellFormed && qid !in ManifestOf(q)
    ensures p.Issue? <==> wellFormed && qid in ManifestOf(q) && option in OptionIds(q, qid)
  {
    ManifestEntry(q, qid);
    if !wellFormed {
      return Decline(Malformed);
    }
    var question := Lookup(q, qid);
    if question.None? {
      return Decline(UnknownQuestion);
    }
    var g := question.value;
    var valid := false;
    for i := 0 to |g.question.options|
      invariant valid <==> option in Ids(g.question.options)[..i]
    {
      assert Ids(g.question.options)[..i + 1] == Ids(g.question.options)[..i] + [g.question.options[i].id];
      if g.question.options[i].id == option {
        valid := true;
      }
    }
    assert Ids(g.question.options)[..|g.question.options|] == Ids(g.question.options);
    if !valid {
      return Decline(InvalidOption);
    }
    var points := if g.correctOptionId == option then 100 else 0;
    p := Issue(Command.Answer(pid, epoch, rid, qid, option, points, q.id, g.correctOptionId, g.explanation,
      g.question));
  }

  /** Store.StartQuestion up to the script. */
  method PrepareStart(q: Quiz, pid: Id, epoch: Id, wellFormed: bool, qid: Id) returns (p: Prepared)
    requires LiveQuiz(q)
    ensures p.Issue? ==>
      Issued(q, p.cmd) && p.cmd.Start? && p.cmd.pid == pid && p.cmd.qid == qid && p.cmd.epoch == epoch
    ensures p.Issue? <==> qid in ManifestOf(q) && wellFormed
    ensures p.Decline? ==> p.code == if qid in ManifestOf(q) then Malformed else UnknownQuestion
  {
    ManifestEntry(q, qid);
    var question := Lookup(q, qid);
    if question.None? {
      return Decline(UnknownQuestion);
    }
    if !wellFormed {
      return Decline(Malformed);
    }
    LookupValid(q, qid);
    var duration := question.value.study.timing.seconds;
    if duration < 1 || duration > 120 {
      return Decline(BadDuration);
    }
    p := Issue(Command.Start(pid, epoch, qid, duration * 1000));
  }

  /** Store.Join after its first run: a plan is drawn only when the script asked for one,
      and the second run carries it. None means that the first reply already decides. */
  method SecondJoin(q: Quiz, pid: Id, name: string, first: Reply, random: Source)
      returns (again: Option<Command>, failed: bool)
    requires LiveQuiz(q) && name != ""
    ensures again.Some? ==>
      first == Refused(PlanRequired) && again.value.Join? && again.value.pid == pid && again.value.name == name
      && again.value.plan.Some? && Issued(q, again.value)
    ensures again.Some? ==> PlanDrawn(q, random, again.value.plan.value)
    ensures again.Some? <==> first == Refused(PlanRequired) && CanDraw(q, random)
    ensures failed <==> first == Refused(PlanRequired) && !CanDraw(q, random)
  {
    if first != Refused(PlanRequired) {
      return None, false;
    }
    var plan := NewAttemptPlan(q, random);
    if plan.None? {
      return None, true;
    }
    return Some(Command.Join(pid, name, plan)), false;
  }

  // ---------- Ranks ----------

  datatype Row = Row(participantId: Id, displayName: string, score: int, rank: int, answeredCount: int)

  /** The rank of place i: one more than the place of the first row with the same score in its run. */
  function RankAt(rows: seq<Row>, i: nat): (r: int)
    requires i < |rows|
    ensures 1 <= r <= i + 1
  {
    if i == 0 || rows[i].score != rows[i - 1].score then i + 1 else RankAt(rows, i - 1)
  }

  function Ranked(rows: seq<Row>): (r: seq<Row>)
    ensures |r| == |rows|
  {
    seq(|rows|, i requires 0 <= i < |rows| => rows[i].(rank := RankAt(rows, i)))
  }

  /** The first i rows carry their ranks, the rest are as they were. */
  ghost predicate RankedTo(before: seq<Row>, now: seq<Row>, i: nat, rank: int) {
    && |now| == |before| && i <= |before|
    && (i > 0 ==> rank == RankAt(before, i - 1))
    && now[..i] == Ranked(before)[..i] && now[i..] == before[i..]
  }

  lemma RankMoves(before: seq<Row>, now: seq<Row>, i: nat, rank: int)
    requires RankedTo(before, now, i, rank) && i < |before|
    ensures now[i] == before[i] && (i > 0 ==> now[i - 1].score == before[i - 1].score)
    ensures RankedTo(before, now[i := now[i].(rank := RankAt(before, i))], i + 1, RankAt(before, i))
  {
    assert now[i..][0] == before[i..][0];
    if i > 0 {
      assert now[..i][i - 1] == Ranked(before)[..i][i - 1];
    }
    var next := now[i := now[i].(rank := RankAt(before, i))];
    assert next[..i + 1] == now[..i] + [next[i]] == Ranked(before)[..i + 1];
    assert next[i + 1..] == now[i..][1..];
  }

  /** domain.Rank, in place. */
  method Rank(rows: array<Row>)
    modifies rows
    ensures rows[..] == Ranked(old(rows[..]))
  {
    hide RankedTo, Ranked;
    var rank := 0;
    ghost var before := rows[..];
    RankBegins(before);
    for i := 0 to rows.Length
      invariant RankedTo(before, rows[..], i, rank)
    {
      ghost var was := rows[..];
      RankMoves(before, was, i, rank);
      RankKept(before, was, i, rank);
      if i == 0 || rows[i].score != rows[i - 1].score {
        rank := i + 1;
      }
      rows[i] := rows[i].(rank := rank);
      assert rows[..] == was[i := was[i].(rank := rank)];
    }
    RankEnds(before, rows[..], rank);
  }

  lemma RankBegins(before: seq<Row>)
    ensures RankedTo(before, before, 0, 0)
  {
  }

  lemma RankKept(before: seq<Row>, now: seq<Row>, i: nat, rank: int)
    requires RankedTo(before, now, i, rank)
    ensures i > 0 ==> i <= |before| && rank == RankAt(before, i - 1)
  {
  }

  lemma RankEnds(before: seq<Row>, now: seq<Row>, rank: int)
    requires RankedTo(before, now, |before|, rank)
    ensures now == Ranked(before)
  {
    assert now == now[..|before|] && Ranked(before) == Ranked(before)[..|before|];
  }

  /** Rows with a strictly higher score among the first n. */
  function Above(rows: seq<Row>, score: int, n: nat): nat
    requires n <= |rows|
  {
    if n == 0 then 0 else Above(rows, score, n - 1) + (if rows[n - 1].score > score then 1 else 0)
  }

  lemma {:induction false} AllAbove(rows: seq<Row>, score: int, n: nat)
    requires n <= |rows| && forall k :: 0 <= k < n ==> rows[k].score > score
    ensures Above(rows, score, n) == n
    decreases n
  {
    if n > 0 {
      AllAbove(rows, score, n - 1);
    }
  }

  lemma {:induction false} NoneAboveFrom(rows: seq<Row>, score: int, n: nat, m: nat)
    requires n <= m <= |rows| && forall k :: n <= k < m ==> rows[k].score <= score
    ensures Above(rows, score, m) == Above(rows, score, n)
    decreases m
  {
    if n < m {
      NoneAboveFrom(rows, score, n, m - 1);
    }
  }

  predicate Descending(rows: seq<Row>) {
    forall i, j :: 0 <= i < j < |rows| ==> rows[i].score >= rows[j].score
  }

  /** Competition ranking: 1, 1, 3. A rank counts the rows with a higher score. */
  lemma {:induction false} RankCountsHigherScores(rows: seq<Row>, i: nat)
    requires Descending(rows) && i < |rows|
    ensures RankAt(rows, i) == 1 + Above(rows, rows[i].score, |rows|)
    decreases i
  {
    if i == 0 || rows[i].score != rows[i - 1].score {
      AllAbove(rows, rows[i].score, i);
      NoneAboveFrom(rows, rows[i].score, i, |rows|);
    } else {
      RankCountsHigherScores(rows, i - 1);
    }
  }

  // ---------- Receipts in order of acceptance ----------

  function InsertByVersion(r: Receipt, rs: seq<Receipt>): (t: seq<Receipt>)
    ensures |t| == |rs| + 1
  {
    if rs == [] || r.acceptedVersion < rs[0].acceptedVersion then [r] + rs
    else [rs[0]] + InsertByVersion(r, rs[1..])
  }

  /** sort.Slice by AcceptedVersion. */
  function ByVersion(rs: seq<Receipt>): (t: seq<Receipt>)
    ensures |t| == |rs|
  {
    if rs == [] then [] else InsertByVersion(rs[|rs| - 1], ByVersion(rs[..|rs| - 1]))
  }

  function TaughtAll(q: Quiz, rs: seq<Receipt>): (t: seq<Receipt>)
    ensures |t| == |rs|
  {
    if rs == [] then [] else TaughtAll(q, rs[..|rs| - 1]) + [Teach(q, rs[|rs| - 1])]
  }

  function CountCorrect(rs: seq<Receipt>): (n: nat)
    ensures n <= |rs|
  {
    if rs == [] then 0 else CountCorrect(rs[..|rs| - 1]) + (if rs[|rs| - 1].correctness then 1 else 0)
  }

  // ---------- A learner's state ----------

  datatype Public = Public(quizId: Id, epoch: Id, version: int, participantCount: int, leaderboard: seq<Row>)

  /** Accuracy is kept in tenths of a percent. */
  datatype Learner = Learner(
    public: Public, totalQuestions: int, participantId: Id, answeredCount: int, score: int, completed: bool,
    correctCount: int, accuracyTenths: int, currentRank: int, questionNumber: int,
    currentQuestion: Option<Question>, receipts: seq<Receipt>)

  function RowsOf(rows: seq<Entry>, participants: map<Id, Member>): (r: seq<Row>)
    requires forall i :: 0 <= i < |rows| ==> rows[i].0 in participants
    ensures |r| == |rows|
  {
    seq(|rows|, i requires 0 <= i < |rows| =>
      Row(rows[i].0, participants[rows[i].0].name, rows[i].1, 0, participants[rows[i].0].count))
  }

  ghost predicate Consistent(s: State) {
    s.meta.Some? && SameMembers(s)
  }

  lemma ListedAreMembers(s: State)
    requires SameMembers(s)
    ensures forall i :: 0 <= i < |RevRange(s.scores)| ==> RevRange(s.scores)[i].0 in s.participants
  {
    Listed(s.scores);
    forall i | 0 <= i < |RevRange(s.scores)|
      ensures RevRange(s.scores)[i].0 in s.participants
    {
      assert RevRange(s.scores)[i].0 in s.scores.Keys;
    }
  }

  /** The public snapshot of a room. */
  ghost function PublicOf(q: Quiz, s: State): Public
    requires Consistent(s)
  {
    ListedAreMembers(s);
    var rows := Ranked(RowsOf(RevRange(s.scores), s.participants));
    Public(q.id, s.meta.value.epoch, s.meta.value.version, |rows|, rows)
  }

  /** Round-to-nearest in integers, as the Go code writes it. */
  function AccuracyTenths(correct: int, total: int): int
    requires total > 0
  {
    (correct * 1000 + total / 2) / total
  }

  function FindRow(rows: seq<Row>, pid: Id): (r: Option<Row>)
    ensures r.Some? ==> r.value in rows && r.value.participantId == pid
    ensures r.None? ==> forall row :: row in rows ==> row.participantId != pid
  {
    if rows == [] then None
    else if rows[0].participantId == pid then Some(rows[0])
    else FindRow(rows[1..], pid)
  }

  // ---------- Assembling a snapshot reply ----------

  /** What Snapshot requires of one listed score and its stored member. */
  predicate RowSound(q: Quiz, e: Entry, participants: map<Id, Member>) {
    && e.0 in participants
    && 0 <= e.1 <= |q.questions| * 100 && e.1 % 50 == 0
    && 0 <= participants[e.0].count <= |q.questions|
    && e.1 <= 100 * participants[e.0].count
    && participants[e.0].name != ""
  }

  predicate RowsSound(q: Quiz, rows: seq<Entry>, participants: map<Id, Member>) {
    forall i :: 0 <= i < |rows| ==> RowSound(q, rows[i], participants)
  }

  function PublicFrom(q: Quiz, d: Reply): Public
    requires d.Dump? && RowsSound(q, d.rows, d.participants)
  {
    var rows := Ranked(RowsOf(d.rows, d.participants));
    Public(q.id, d.epoch, d.version, |rows|, rows)
  }

  /** The standings of a snapshot reply, or an error at the first unsound row. */
  method AssemblePublic(q: Quiz, d: Reply) returns (r: Option<Public>)
    requires d.Dump?
    ensures r.Some? <==> RowsSound(q, d.rows, d.participants)
    ensures r.Some? ==> r.value == PublicFrom(q, d)
  {
    var rows: seq<Row> := [];
    for i := 0 to |d.rows|
      invariant RowsSound(q, d.rows[..i], d.participants)
      invariant rows == RowsOf(d.rows[..i], d.participants)
    {
      var (id, score) := d.rows[i];
      if id !in d.participants || score < 0 || score > |q.questions| * 100 || score % 50 != 0 {
        assert !RowSound(q, d.rows[i], d.participants);
        return None;
      }
      var member := d.participants[id];
      if member.count < 0 || member.count > |q.questions| || score > 100 * member.count || member.name == "" {
        assert !RowSound(q, d.rows[i], d.participants);
        return None;
      }
      rows := rows + [Row(id, member.name, score, 0, member.count)];
    }
    assert d.rows[..|d.rows|] == d.rows;
    var table := new Row[|rows|](i requires 0 <= i < |rows| => rows[i]);
    assert table[..] == rows;
    Rank(table);
    r := Some(Public(q.id, d.epoch, d.version, table.Length, table[..]));
  }

  function OwnRow(rows: seq<Row>, pid: Id): Row {
    var found := FindRow(rows, pid);
    if found.Some? then found.value else Row(pid, "", 0, 0, 0)
  }

  function CursorOf(participants: map<Id, Member>, pid: Id): int {
    if pid in participants then participants[pid].cursor else 0
  }

  ghost predicate DumpSound(q: Quiz, pid: Id, d: Reply) {
    && d.Dump? && RowsSound(q, d.rows, d.participants)
    && d.plan.Some? && PlanFits(ManifestOf(q), q.contentVersion, d.plan.value)
    && (OwnRow(PublicFrom(q, d).leaderboard, pid).answeredCount == |d.plan.value.questionOrder|
        || 0 <= CursorOf(d.participants, pid) < |d.plan.value.questionOrder|)
  }

  lemma PlannedQuestionKnown(q: Quiz, plan: Plan, k: nat)
    requires LiveQuiz(q) && PlanFits(ManifestOf(q), q.contentVersion, plan) && k < |plan.questionOrder|
    ensures Lookup(q, plan.questionOrder[k]).Some? && plan.questionOrder[k] in plan.optionOrders
    ensures plan.questionOrder[k] in ManifestOf(q)
  {
    assert plan.questionOrder[k] in plan.questionOrder;
    ManifestEntry(q, plan.questionOrder[k]);
    assert plan.questionOrder[k] in plan.optionOrders.Keys;
  }

  ghost function LearnerFrom(q: Quiz, pid: Id, d: Reply): Learner
    requires LiveQuiz(q) && DumpSound(q, pid, d)
  {
    var public, order := PublicFrom(q, d), d.plan.value.questionOrder;
    var row, cursor := OwnRow(public.leaderboard, pid), CursorOf(d.participants, pid);
    var receipts := ByVersion(TaughtAll(q, d.receipts));
    var completed := row.answeredCount == |order|;
    var correct := CountCorrect(receipts);
    Learner(public, |q.questions|, pid, row.answeredCount, row.score, completed,
            correct, AccuracyTenths(correct, |q.questions|), row.rank,
            if completed then 0 else cursor + 1,
            if completed then None else
              PlannedQuestionKnown(q, d.plan.value, cursor);
              Some(Presented(Lookup(q, order[cursor]).value, d.plan.value.optionOrders[order[cursor]])),
            receipts)
  }

  /** Store.Snapshot for a participant, after the script has replied. */
  method Assemble(q: Quiz, pid: Id, d: Reply) returns (r: Option<Learner>)
    requires LiveQuiz(q) && d.Dump?
    ensures r.Some? <==> DumpSound(q, pid, d)
    ensures r.Some? ==> r.value == LearnerFrom(q, pid, d)
  {
    hide LiveQuiz, PlanFits, RowsSound, Ranked, RowsOf, Lookup;
    var public := AssemblePublic(q, d);
    if public.None? {
      return None;
    }
    var receipts: seq<Receipt> := [];
    for i := 0 to |d.receipts|
      invariant receipts == TaughtAll(q, d.receipts[..i])
    {
      assert d.receipts[..i + 1][..i] == d.receipts[..i];
      receipts := receipts + [Teach(q, d.receipts[i])];
    }
    assert d.receipts[..|d.receipts|] == d.receipts;
    receipts := ByVersion(receipts);
    var correct := 0;
    for i := 0 to |receipts|
      invariant correct == CountCorrect(receipts[..i])
    {
      assert receipts[..i + 1][..i] == receipts[..i];
      if receipts[i].correctness {
        correct := correct + 1;
      }
    }
    assert receipts[..|receipts|] == receipts;
    if d.plan.None? {
      return None;
    }
    var plan := d.plan.value;
    var valid := Validate(q, plan);
    if !valid {
      return None;
    }
    var row := OwnRow(public.value.leaderboard, pid);
    var completed := row.answeredCount == |plan.questionOrder|;
    var cursor := CursorOf(d.participants, pid);
    var current, number := None, 0;
    if !completed {
      if cursor < 0 || cursor >= |plan.questionOrder| {
        return None;
      }
      PlannedQuestionKnown(q, plan, cursor);
      var question := Present(q, plan, plan.questionOrder[cursor]);
      current, number := Some(question), cursor + 1;
    }
    QuestionsExist(q);
    r := Some(Learner(public.value, |q.questions|, pid, row.answeredCount, row.score, completed,
                      correct, AccuracyTenths(correct, |q.questions|), row.rank, number, current, receipts));
  }

  lemma QuestionsExist(q: Quiz)
    requires LiveQuiz(q)
    ensures |q.questions| > 0
  {
  }
}
