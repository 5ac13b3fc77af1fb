/** Every run of the script keeps the invariant, and none of its storage guards fires
    in a room that has it. */
module RoomSteps {
  import opened Domain
  import opened Attempt
  import opened Standings
  import opened Room
  import opened RoomInvariant

  // ---------- Version stays small ----------

  lemma {:induction false} RowBounded(keys: set<Field>, pid: Id, qids: set<Id>)
    requires forall f :: f in keys ==> f.0 == pid && f.1 in qids
    ensures |keys| <= |qids|
    decreases |qids|
  {
    if keys != {} {
      var f :| f in keys;
      var rest := keys - {f};
      assert forall g :: g in rest ==> g.1 != f.1;
      RowBounded(rest, pid, qids - {f.1});
      assert |keys| == |rest| + 1;
    }
  }

  lemma {:induction false} FieldsBounded(keys: set<Field>, pids: set<Id>, qids: set<Id>)
    requires forall f :: f in keys ==> f.0 in pids && f.1 in qids
    ensures |keys| <= |pids| * |qids|
    decreases |pids|
  {
    if pids == {} {
      assert keys == {};
    } else {
      var pid :| pid in pids;
      var row := set f | f in keys && f.0 == pid;
      RowBounded(row, pid, qids);
      FieldsBounded(keys - row, pids - {pid}, qids);
      assert |keys| == |row| + |keys - row|;
      assert |pids| * |qids| == |pids - {pid}| * |qids| + |qids|;
    }
  }

  lemma AnswersBounded(q: Quiz, m: Meta, s: State)
    requires Receipts(q, m, s)
    ensures |s.answers| <= |s.attempts.Keys| * |ManifestOf(q)|
  {
    forall f | f in s.answers
      ensures f.0 in s.attempts && f.1 in ManifestOf(q)
    {
      assert ReceiptFits(q, m, s, f);
    }
    FieldsBounded(s.answers.Keys, s.attempts.Keys, ManifestOf(q).Keys);
    assert |s.answers| == |s.answers.Keys| && |ManifestOf(q).Keys| == |ManifestOf(q)|;
  }

  /** At most one commit per participant and one per participant and question. */
  lemma VersionBounded(q: Quiz, content: Id, m: Meta, s: State)
    requires LiveQuiz(q) && MetaFits(q, content, m, s) && SameMembers(s) && Receipts(q, m, s)
    ensures 0 <= m.version <= m.capacity * (1 + |q.questions|) <= 1800
  {
    hide LiveQuiz, Receipts;
    var n, p := |q.questions|, |s.participants|;
    var cap := m.capacity;
    AnswersBounded(q, m, s);
    ManifestCount(q);
    ManifestRange(q);
    assert |s.attempts.Keys| == |s.participants.Keys| == p;
    assert p * n <= cap * n by { Scaled(p, cap, n); }
    assert cap * (1 + n) == cap + cap * n;
    assert cap * n <= 200 * 8 by { Scaled(cap, 200, n); Scaled(n, 8, 200); }
  }

  lemma Scaled(a: int, b: int, k: nat)
    requires a <= b
    ensures a * k <= b * k
  {
  }

  // ---------- Preflight ----------

  ghost predicate VersionsUpTo(answers: map<Field, Receipt>, v: int) {
    forall f :: f in answers ==> answers[f].acceptedVersion <= v
  }

  ghost predicate PointsInSteps(answers: map<Field, Receipt>) {
    forall f :: f in answers ==> answers[f].pointsAwarded in {0, 50, 100}
  }

  lemma ReceiptsAreSmall(q: Quiz, m: Meta, s: State)
    requires Receipts(q, m, s)
    ensures VersionsUpTo(s.answers, m.version) && PointsInSteps(s.answers)
  {
    forall f | f in s.answers
      ensures s.answers[f].acceptedVersion <= m.version && s.answers[f].pointsAwarded in {0, 50, 100}
    {
      assert ReceiptFits(q, m, s, f);
    }
  }

  lemma MemberIsSound(m: Meta, s: State, content: Id, pid: Id)
    requires Progress(m, s, pid) && PointsInSteps(s.answers)
    requires PlanFits(m.manifest, content, s.attempts[pid])
    ensures MemberSound(s, m, content, pid)
  {
    hide PlanFits;
    FittingLength(m.manifest, content, s.attempts[pid]);
    EarnedBounds(s.attempts[pid].questionOrder, s.answers, pid, m.version);
  }

  lemma ManifestRange(q: Quiz)
    requires LiveQuiz(q)
    ensures 4 <= |ManifestOf(q)| <= 8
  {
    ManifestCount(q);
  }

  lemma PidIsSound(q: Quiz, content: Id, m: Meta, s: State, pid: Id)
    requires SameMembers(s) && PlansFit(q, content, s) && AllProgress(m, s) && PointsInSteps(s.answers)
    requires m.manifest == ManifestOf(q)
    ensures MemberSound(s, m, content, pid)
  {
    hide PlanFits, Progress, PointsInSteps;
    if pid in s.participants {
      MemberIsSound(m, s, content, pid);
    }
  }

  /** No preflight guard fires in a room with the invariant. */
  lemma PreflightPasses(q: Quiz, s: State, m: Meta, cmd: Command)
    requires LiveQuiz(q) && s.meta == Some(m) && Inv(q, q.contentVersion, s)
    ensures RoomSound(s, m) && Preflight(s, m, q.contentVersion, cmd)
  {
    hide PlansFit, AllProgress, Receipts, Mirrored, OneVersionEach, MemberSound;
    VersionBounded(q, q.contentVersion, m, s);
    ManifestRange(q);
    ReceiptsAreSmall(q, m, s);
    if PidOf(cmd).Some? {
      PidIsSound(q, q.contentVersion, m, s, PidOf(cmd).value);
    }
  }

  // ---------- Join ----------

  /** Progress looks at nothing but the participant's own entries. */
  lemma ProgressCarries(m: Meta, s: State, m': Meta, t: State, pid: Id)
    requires Progress(m, s, pid)
    requires pid in t.participants && pid in t.attempts && pid in t.scores
    requires t.participants[pid] == s.participants[pid] && t.attempts[pid] == s.attempts[pid]
      && t.scores[pid] == s.scores[pid]
    requires forall qid :: (pid, qid) in s.answers <==> (pid, qid) in t.answers
    requires forall qid :: (pid, qid) in s.answers ==> s.answers[(pid, qid)] == t.answers[(pid, qid)]
    requires VersionsUpTo(s.answers, m.version) && m.version <= m'.version
    ensures Progress(m', t, pid)
  {
    var order := s.attempts[pid].questionOrder;
    EarnedUnchanged(order, s.answers, t.answers, pid, m.version, m'.version);
    AnsweredUnchanged(order, s.answers.Keys, t.answers.Keys, pid);
  }

  lemma NewcomerProgress(m: Meta, s: State, pid: Id, name: string, plan: Plan)
    requires name != "" && plan.questionOrder != []
    requires forall qid :: (pid, qid) !in s.answers
    ensures Progress(m.(version := m.version + 1), Admitted(s, m, pid, name, plan), pid)
  {
    EarnedNothing(plan.questionOrder, s.answers, pid, m.version + 1);
    FirstOpenSpec(plan.questionOrder, s.answers.Keys, pid);
    assert (pid, plan.questionOrder[0]) !in s.answers.Keys;
  }

  lemma PlanNotEmpty(manifest: Manifest, version: Id, plan: Plan)
    requires PlanFits(manifest, version, plan)
    ensures plan.questionOrder != []
  {
    FittingLength(manifest, version, plan);
  }

  lemma AnswererIsMember(q: Quiz, m: Meta, s: State, f: Field)
    requires Receipts(q, m, s)
    ensures f in s.answers ==> f.0 in s.attempts
  {
    if f in s.answers {
      assert ReceiptFits(q, m, s, f);
    }
  }

  lemma OutsiderHasNoAnswers(q: Quiz, m: Meta, s: State, pid: Id)
    requires Receipts(q, m, s) && pid !in s.attempts
    ensures forall qid :: (pid, qid) !in s.answers
  {
    hide Receipts;
    forall qid: Id
      ensures (pid, qid) !in s.answers
    {
      AnswererIsMember(q, m, s, (pid, qid));
    }
  }

  lemma JoinKeepsPlans(q: Quiz, content: Id, m: Meta, s: State, pid: Id, name: string, plan: Plan)
    requires SameMembers(s) && PlansFit(q, content, s) && PlanFits(ManifestOf(q), content, plan)
    ensures SameMembers(Admitted(s, m, pid, name, plan)) && PlansFit(q, content, Admitted(s, m, pid, name, plan))
  {
    hide PlanFits;
    var t := Admitted(s, m, pid, name, plan);
    assert t.participants.Keys == s.participants.Keys + {pid};
    assert t.scores.Keys == s.scores.Keys + {pid};
    assert t.attempts.Keys == s.attempts.Keys + {pid};
  }

  lemma JoinKeepsProgress(m: Meta, s: State, pid: Id, name: string, plan: Plan)
    requires AllProgress(m, s) && VersionsUpTo(s.answers, m.version)
    requires forall qid :: (pid, qid) !in s.answers
    requires name != "" && plan.questionOrder != []
    ensures AllProgress(m.(version := m.version + 1), Admitted(s, m, pid, name, plan))
  {
    var t, m' := Admitted(s, m, pid, name, plan), m.(version := m.version + 1);
    forall p | p in t.participants
      ensures Progress(m', t, p)
    {
      if p == pid {
        NewcomerProgress(m, s, pid, name, plan);
      } else {
        ProgressCarries(m, s, m', t, p);
      }
    }
  }

  /** Receipts survive when answers, plans and epoch do. */
  lemma ReceiptsCarry(q: Quiz, m: Meta, s: State, m': Meta, t: State)
    requires Receipts(q, m, s) && t.answers == s.answers
    requires forall pid :: pid in s.attempts ==> pid in t.attempts && t.attempts[pid] == s.attempts[pid]
    requires m'.epoch == m.epoch && m.version <= m'.version
    ensures Receipts(q, m', t)
  {
    forall f | f in t.answers
      ensures ReceiptFits(q, m', t, f)
    {
      assert ReceiptFits(q, m, s, f);
    }
  }

  lemma JoinKeepsInv(q: Quiz, content: Id, m: Meta, s: State, pid: Id, name: string, plan: Plan)
    requires s.meta == Some(m) && Inv(q, content, s)
    requires pid !in s.participants && |s.participants| < m.capacity
    requires name != "" && PlanFits(ManifestOf(q), content, plan)
    ensures Inv(q, content, Admitted(s, m, pid, name, plan))
  {
    hide PlanFits, PlansFit, SameMembers, MetaFits, AllProgress, Receipts, VersionsUpTo, Mirrored, OneVersionEach,
      Timers;
    var t := Admitted(s, m, pid, name, plan);
    ReceiptsAreSmall(q, m, s);
    NotEnrolled(s, pid);
    OutsiderHasNoAnswers(q, m, s, pid);
    PlanNotEmpty(ManifestOf(q), content, plan);
    JoinKeepsPlans(q, content, m, s, pid, name, plan);
    JoinKeepsProgress(m, s, pid, name, plan);
    ReceiptsCarry(q, m, s, m.(version := m.version + 1), t);
    SameRecords(s, t);
    JoinKeepsMeta(q, content, m, s, pid, name, plan);
  }

  lemma NotEnrolled(s: State, pid: Id)
    requires SameMembers(s) && pid !in s.participants
    ensures pid !in s.attempts && pid !in s.scores
  {
  }

  lemma JoinKeepsMeta(q: Quiz, content: Id, m: Meta, s: State, pid: Id, name: string, plan: Plan)
    requires MetaFits(q, content, m, s) && pid !in s.participants && |s.participants| < m.capacity
    ensures MetaFits(q, content, m.(version := m.version + 1), Admitted(s, m, pid, name, plan))
  {
    assert |Admitted(s, m, pid, name, plan).participants| == |s.participants| + 1;
  }

  lemma SameRecords(s: State, t: State)
    requires t.answers == s.answers && t.requests == s.requests
    ensures Mirrored(s) ==> Mirrored(t)
    ensures OneVersionEach(s) ==> OneVersionEach(t)
    ensures t.timers == s.timers && Timers(s) ==> Timers(t)
  {
  }

  // ---------- Answer ----------

  /** What the checks before the writes guarantee of the receipt to be written. */
  ghost predicate Fresh(q: Quiz, m: Meta, s: State, pid: Id, r: Receipt) {
    && pid in s.participants && pid in s.attempts && pid in s.scores
    && (pid, r.questionId) !in s.answers && (pid, r.submissionId) !in s.requests
    && r.questionId in ManifestOf(q) && Lookup(q, r.questionId).Some?
    && r.quizId == q.id && r.epoch == m.epoch && r.acceptedVersion == m.version + 1
    && GradedWell(Lookup(q, r.questionId).value, s.attempts[pid], r)
    && r.totalScoreAtAcceptance == s.scores[pid] + r.pointsAwarded
  }

  lemma WriterProgress(m: Meta, s: State, pid: Id, r: Receipt)
    requires Progress(m, s, pid)
    requires Distinct(s.attempts[pid].questionOrder) && r.questionId in s.attempts[pid].questionOrder
    requires (pid, r.questionId) !in s.answers
    requires VersionsUpTo(s.answers, m.version) && r.acceptedVersion == m.version + 1
    requires r.totalScoreAtAcceptance == s.scores[pid] + r.pointsAwarded
    ensures Progress(m.(version := m.version + 1), Recorded(s, m, pid, r), pid)
    ensures r.totalScoreAtAcceptance
      == Earned(s.attempts[pid].questionOrder, s.answers[(pid, r.questionId) := r], pid, r.acceptedVersion)
  {
    var order := s.attempts[pid].questionOrder;
    var t := Recorded(s, m, pid, r);
    assert t.answers.Keys == s.answers.Keys + {(pid, r.questionId)};
    EarnedGrows(order, s.answers, pid, r.questionId, r, m.version);
    AnsweredGrows(order, s.answers.Keys, pid, r.questionId);
  }

  lemma PlanListsQuestion(manifest: Manifest, version: Id, plan: Plan, qid: Id)
    requires PlanFits(manifest, version, plan) && qid in manifest
    ensures Distinct(plan.questionOrder) && qid in plan.questionOrder && qid in plan.optionOrders
  {
  }

  lemma AnswerKeepsPlans(q: Quiz, content: Id, m: Meta, s: State, pid: Id, r: Receipt)
    requires SameMembers(s) && PlansFit(q, content, s) && pid in s.participants && pid in s.attempts
    ensures SameMembers(Recorded(s, m, pid, r)) && PlansFit(q, content, Recorded(s, m, pid, r))
  {
    hide PlanFits;
    var t := Recorded(s, m, pid, r);
    assert SameMembers(s) ==> pid in s.scores.Keys;
    assert t.participants.Keys == s.participants.Keys && t.scores.Keys == s.scores.Keys;
  }

  lemma AnswerKeepsProgress(m: Meta, s: State, pid: Id, r: Receipt)
    requires AllProgress(m, s) && VersionsUpTo(s.answers, m.version)
    requires pid in s.participants && pid in s.attempts && pid in s.scores
    requires Distinct(s.attempts[pid].questionOrder) && r.questionId in s.attempts[pid].questionOrder
    requires (pid, r.questionId) !in s.answers && r.acceptedVersion == m.version + 1
    requires r.totalScoreAtAcceptance == s.scores[pid] + r.pointsAwarded
    ensures AllProgress(m.(version := m.version + 1), Recorded(s, m, pid, r))
  {
    var t, m' := Recorded(s, m, pid, r), m.(version := m.version + 1);
    forall p | p in t.participants
      ensures Progress(m', t, p)
    {
      if p == pid {
        WriterProgress(m, s, pid, r);
      } else {
        ProgressCarries(m, s, m', t, p);
      }
    }
  }

  lemma {:induction false} EarnedOlder(order: seq<Id>, a: map<Field, Receipt>, f: Field, r: Receipt, pid: Id, upTo: int)
    requires f !in a && r.acceptedVersion > upTo
    ensures Earned(order, a, pid, upTo) == Earned(order, a[f := r], pid, upTo)
    decreases |order|
  {
    if order != [] {
      EarnedOlder(order[..|order| - 1], a, f, r, pid, upTo);
    }
  }

  lemma OldReceiptFits(q: Quiz, m: Meta, s: State, pid: Id, r: Receipt, f: Field)
    requires pid in s.participants && pid in s.attempts && f in s.answers && ReceiptFits(q, m, s, f)
    requires (pid, r.questionId) !in s.answers && r.acceptedVersion == m.version + 1
    ensures ReceiptFits(q, m.(version := m.version + 1), Recorded(s, m, pid, r), f)
  {
    hide GradedWell;
    // The new receipt's version is above f's, so it does not count towards f's total.
    EarnedOlder(s.attempts[f.0].questionOrder, s.answers, (pid, r.questionId), r, f.0, s.answers[f].acceptedVersion);
  }

  lemma AnswerKeepsReceipts(q: Quiz, m: Meta, s: State, pid: Id, r: Receipt)
    requires Receipts(q, m, s) && Fresh(q, m, s, pid, r) && m.version >= 0
    requires r.totalScoreAtAcceptance
      == Earned(s.attempts[pid].questionOrder, s.answers[(pid, r.questionId) := r], pid, r.acceptedVersion)
    ensures Receipts(q, m.(version := m.version + 1), Recorded(s, m, pid, r))
  {
    hide GradedWell;
    var t, m' := Recorded(s, m, pid, r), m.(version := m.version + 1);
    forall f | f in t.answers
      ensures ReceiptFits(q, m', t, f)
    {
      if f in s.answers {
        OldReceiptFits(q, m, s, pid, r, f);
      } else {
        assert f == (pid, r.questionId);
      }
    }
  }

  lemma AnswerKeepsVersions(m: Meta, s: State, pid: Id, r: Receipt)
    requires OneVersionEach(s) && VersionsUpTo(s.answers, m.version) && r.acceptedVersion == m.version + 1
    requires pid in s.participants && pid in s.attempts
    ensures OneVersionEach(Recorded(s, m, pid, r))
  {
  }

  lemma AnswerKeepsMirror(m: Meta, s: State, pid: Id, r: Receipt)
    requires Mirrored(s) && pid in s.participants && pid in s.attempts
    requires (pid, r.questionId) !in s.answers && (pid, r.submissionId) !in s.requests
    ensures Mirrored(Recorded(s, m, pid, r))
  {
    var t := Recorded(s, m, pid, r);
    forall f | f in t.requests
      ensures
        var x := t.requests[f];
        x.submissionId == f.1 && (f.0, x.questionId) in t.answers && t.answers[(f.0, x.questionId)] == x
    {
      if f != (pid, r.submissionId) {
        assert f in s.requests;
      }
    }
    forall f | f in t.answers
      ensures (f.0, t.answers[f].submissionId) in t.requests
        && t.requests[(f.0, t.answers[f].submissionId)] == t.answers[f]
    {
      if f != (pid, r.questionId) {
        assert f in s.answers;
      }
    }
  }

  lemma AnswerKeepsInv(q: Quiz, content: Id, m: Meta, s: State, pid: Id, r: Receipt)
    requires s.meta == Some(m) && Inv(q, content, s) && Fresh(q, m, s, pid, r)
    ensures Inv(q, content, Recorded(s, m, pid, r))
  {
    hide PlanFits, PlansFit, AllProgress, Receipts, VersionsUpTo, Mirrored, OneVersionEach, Timers;
    hide GradedWell, Recorded, Progress;
    ReceiptsAreSmall(q, m, s);
    PlanOf(q, content, s, pid);
    PlanListsQuestion(ManifestOf(q), content, s.attempts[pid], r.questionId);
    AnswerKeepsPlans(q, content, m, s, pid, r);
    AnswerKeepsProgress(m, s, pid, r);
    ProgressOf(m, s, pid);
    WriterProgress(m, s, pid, r);
    AnswerKeepsReceipts(q, m, s, pid, r);
    AnswerKeepsVersions(m, s, pid, r);
    AnswerKeepsMirror(m, s, pid, r);
    AnswerKeepsMeta(q, content, m, s, pid, r);
    RecordedMeta(m, s, pid, r);
    SameTimers(s, Recorded(s, m, pid, r));
  }

  lemma PlanOf(q: Quiz, content: Id, s: State, pid: Id)
    requires PlansFit(q, content, s) && pid in s.attempts
    ensures PlanFits(ManifestOf(q), content, s.attempts[pid])
  {
  }

  lemma ProgressOf(m: Meta, s: State, pid: Id)
    requires AllProgress(m, s) && pid in s.participants
    ensures Progress(m, s, pid)
  {
  }

  lemma RecordedSizes(m: Meta, s: State, pid: Id, r: Receipt)
    requires pid in s.participants && pid in s.attempts && (pid, r.questionId) !in s.answers
    ensures |Recorded(s, m, pid, r).participants| == |s.participants|
    ensures |Recorded(s, m, pid, r).answers| == |s.answers| + 1
  {
    hide FirstOpen;
    var t := Recorded(s, m, pid, r);
    assert t.participants.Keys == s.participants.Keys;
    assert |t.participants.Keys| == |t.participants| && |s.participants.Keys| == |s.participants|;
  }

  lemma AnswerKeepsMeta(q: Quiz, content: Id, m: Meta, s: State, pid: Id, r: Receipt)
    requires pid in s.participants && pid in s.attempts && (pid, r.questionId) !in s.answers
    requires MetaFits(q, content, m, s)
    ensures Recorded(s, m, pid, r).meta == Some(m.(version := m.version + 1))
    ensures MetaFits(q, content, m.(version := m.version + 1), Recorded(s, m, pid, r))
  {
    hide Recorded, ManifestOf;
    RecordedMeta(m, s, pid, r);
    RecordedSizes(m, s, pid, r);
  }

  lemma RecordedMeta(m: Meta, s: State, pid: Id, r: Receipt)
    requires pid in s.participants && pid in s.attempts
    ensures Recorded(s, m, pid, r).meta == Some(m.(version := m.version + 1))
    ensures Recorded(s, m, pid, r).timers == s.timers
  {
    hide FirstOpen;
  }

  lemma SameTimers(s: State, t: State)
    requires t.timers == s.timers && Timers(s)
    ensures Timers(t)
  {
  }

  // ---------- The answer operation ----------

  /** The commands that commit an answer: current epoch, a member, a new request and
      a new question. */
  ghost predicate Commits(s: State, m: Meta, cmd: Command) {
    && cmd.Answer? && cmd.epoch == m.epoch && cmd.pid in s.participants
    && (cmd.pid, cmd.rid) !in s.requests && (cmd.pid, cmd.qid) !in s.answers
  }

  function ReceiptOf(s: State, m: Meta, cmd: Command, now: int): Receipt
    requires cmd.Answer? && cmd.pid in s.attempts && cmd.pid in s.scores && cmd.qid in s.attempts[cmd.pid].optionOrders
  {
    ReceiptFor(s, m, cmd, now, Ordered(cmd.question.options, s.attempts[cmd.pid].optionOrders[cmd.qid]))
  }

  lemma EntryValid(q: Quiz, qid: Id)
    requires LiveQuiz(q) && qid in ManifestOf(q)
    ensures Lookup(q, qid).Some? && ValidGraded(Lookup(q, qid).value) && Lookup(q, qid).value.question.id == qid
  {
    LookupValid(q, qid);
  }

  lemma OptionsResolve(q: Quiz, plan: Plan, qid: Id)
    requires LiveQuiz(q) && PlanFits(ManifestOf(q), plan.contentVersion, plan) && qid in ManifestOf(q)
    requires plan.contentVersion == q.contentVersion
    ensures Lookup(q, qid).Some? && qid in plan.optionOrders && qid in plan.questionOrder
    ensures ValidGraded(Lookup(q, qid).value) && Lookup(q, qid).value.question.id == qid
    ensures Resolved(Lookup(q, qid).value.question.options, plan.optionOrders[qid])
      == Some(Ordered(Lookup(q, qid).value.question.options, plan.optionOrders[qid]))
  {
    hide PlanFits, LiveQuiz, ManifestOf;
    OptionsFit(q, plan, qid);
    PlanListsQuestion(ManifestOf(q), q.contentVersion, plan, qid);
    EntryValid(q, qid);
    var options := Lookup(q, qid).value.question.options;
    forall i, j | 0 <= i < j < |options|
      ensures options[i].id != options[j].id
    {
      assert Ids(options)[i] != Ids(options)[j];
    }
    ResolvesToOrdered(options, plan.optionOrders[qid]);
  }

  lemma HasRoomToAnswer(manifest: Manifest, content: Id, m: Meta, s: State, pid: Id, qid: Id)
    requires Progress(m, s, pid) && PlanFits(manifest, content, s.attempts[pid])
    requires qid in manifest && (pid, qid) !in s.answers
    ensures s.participants[pid].count < |manifest|
  {
    hide PlanFits;
    PlanListsQuestion(manifest, content, s.attempts[pid], qid);
    FittingLength(manifest, content, s.attempts[pid]);
    AnsweredShort(s.attempts[pid].questionOrder, s.answers.Keys, pid, qid);
  }

  lemma AnswerCommits(q: Quiz, m: Meta, s: State, cmd: Command, now: int)
    requires LiveQuiz(q) && s.meta == Some(m) && Inv(q, q.contentVersion, s)
    requires Commits(s, m, cmd) && Issued(q, cmd)
    ensures cmd.pid in s.attempts && cmd.pid in s.scores && cmd.qid in s.attempts[cmd.pid].optionOrders
    ensures AnswerStep(s, m, cmd, now)
      == (Recorded(s, m, cmd.pid, ReceiptOf(s, m, cmd, now)), Scored(true, ReceiptOf(s, m, cmd, now)))
    ensures Fresh(q, m, s, cmd.pid, ReceiptOf(s, m, cmd, now))
  {
    hide PlanFits, PlansFit, AllProgress, Receipts, Mirrored, OneVersionEach, Progress, LiveQuiz, ManifestOf, Recorded;
    hide ReceiptFits, Resolved, FirstOpen, Lookup;
    PlanOf(q, q.contentVersion, s, cmd.pid);
    ProgressOf(m, s, cmd.pid);
    OptionsResolve(q, s.attempts[cmd.pid], cmd.qid);
    HasRoomToAnswer(ManifestOf(q), q.contentVersion, m, s, cmd.pid, cmd.qid);
  }

  lemma AnswerOutcome(q: Quiz, m: Meta, s: State, cmd: Command, now: int)
    requires LiveQuiz(q) && s.meta == Some(m) && Inv(q, q.contentVersion, s)
    requires cmd.Answer? && Issued(q, cmd)
    ensures cmd.pid in s.participants ==> cmd.pid in s.attempts && cmd.pid in s.scores
    ensures AnswerStep(s, m, cmd, now).1 != Fault
    ensures Inv(q, q.contentVersion, AnswerStep(s, m, cmd, now).0)
    ensures !Commits(s, m, cmd) ==> AnswerStep(s, m, cmd, now).0 == s
  {
    hide PlansFit, AllProgress, Receipts, Mirrored, OneVersionEach, LiveQuiz, Issued, MetaFits;
    hide Recorded, ReceiptFor;
    if Commits(s, m, cmd) {
      AnswerCommits(q, m, s, cmd, now);
      AnswerKeepsInv(q, q.contentVersion, m, s, cmd.pid, ReceiptOf(s, m, cmd, now));
    }
  }

  // ---------- The other operations ----------

  lemma OpenedIsLegal(q: Quiz, epoch: Id, capacity: int)
    requires 1 <= capacity <= 200
    ensures Inv(q, q.contentVersion, Opened(epoch, q.contentVersion, capacity, ManifestOf(q)))
  {
    hide PlanFits, ReceiptFits, Progress, ManifestOf;
  }

  lemma ProgressIgnoresTimers(m: Meta, s: State, t: State)
    requires t == s.(timers := t.timers) && AllProgress(m, s)
    ensures AllProgress(m, t)
  {
    hide Earned, FirstOpen, AnsweredIn;
    forall pid | pid in t.participants
      ensures Progress(m, t, pid)
    {
      assert Progress(m, s, pid);
    }
  }

  lemma TimersChangeKeepsInv(q: Quiz, m: Meta, s: State, t: State)
    requires s.meta == Some(m) && Inv(q, q.contentVersion, s) && t == s.(timers := t.timers) && Timers(t)
    ensures Inv(q, q.contentVersion, t)
  {
    hide PlanFits, AllProgress, Receipts, Mirrored, OneVersionEach, Timers;
    ProgressIgnoresTimers(m, s, t);
    ReceiptsCarry(q, m, s, m, t);
    SameRecords(s, t);
  }

  lemma StartOutcome(q: Quiz, m: Meta, s: State, cmd: Command, now: int)
    requires LiveQuiz(q) && s.meta == Some(m) && Inv(q, q.contentVersion, s)
    requires cmd.Start? && Issued(q, cmd) && Ticking(now)
    ensures cmd.pid in s.participants ==> cmd.pid in s.attempts
    ensures StartStep(s, m, cmd, now).1 != Fault
    ensures Inv(q, q.contentVersion, StartStep(s, m, cmd, now).0)
    ensures StartStep(s, m, cmd, now).0 == s.(timers := StartStep(s, m, cmd, now).0.timers)
  {
    hide PlansFit, AllProgress, Receipts, Mirrored, OneVersionEach, LiveQuiz, ManifestOf, MetaFits, Lookup;
    EntryValid(q, cmd.qid);
    var t := StartStep(s, m, cmd, now).0;
    assert Timers(t);
    TimersChangeKeepsInv(q, m, s, t);
  }

  lemma SnapshotOutcome(q: Quiz, m: Meta, s: State, cmd: Command)
    requires s.meta == Some(m) && Inv(q, q.contentVersion, s) && cmd.Snapshot?
    ensures cmd.viewer.Some? && cmd.viewer.value in s.participants ==> cmd.viewer.value in s.attempts
    ensures SnapshotStep(s, m, cmd).0 == s
    ensures SnapshotStep(s, m, cmd).1 != Fault
  {
    hide PlansFit, AllProgress, Receipts, Mirrored, OneVersionEach;
    if cmd.viewer.Some? && cmd.viewer.value in s.participants {
      var pid := cmd.viewer.value;
      ProgressOf(m, s, pid);
      CollectsAll(s.attempts[pid].questionOrder, s.answers, pid);
    }
  }

  lemma JoinOutcome(q: Quiz, m: Meta, s: State, cmd: Command)
    requires s.meta == Some(m) && Inv(q, q.contentVersion, s) && cmd.Join? && Issued(q, cmd)
    ensures Inv(q, q.contentVersion, JoinStep(s, m, q.contentVersion, cmd).0)
    ensures JoinStep(s, m, q.contentVersion, cmd).1 != Fault
  {
    hide PlanFits, PlansFit, AllProgress, Receipts, Mirrored, OneVersionEach, Admitted, ManifestOf;
    if cmd.pid !in s.participants && |s.participants| < m.capacity && cmd.plan.Some? {
      JoinKeepsInv(q, q.contentVersion, m, s, cmd.pid, cmd.name, cmd.plan.value);
    }
  }

  /** A legal open room goes straight to the operation itself. */
  lemma ServedDirectly(q: Quiz, m: Meta, s: State, cmd: Command, now: int)
    requires LiveQuiz(q) && s.meta == Some(m) && Inv(q, q.contentVersion, s) && !cmd.Reset?
    ensures RoomSound(s, m) && Preflight(s, m, q.contentVersion, cmd)
    ensures m.content == q.contentVersion
    ensures Step(s, q.contentVersion, cmd, now) == Served(s, m, q.contentVersion, cmd, now)
  {
    hide Inv, LiveQuiz, Served, Preflight, RoomSound;
    PreflightPasses(q, s, m, cmd);
    ContentFits(q, m, s);
  }

  lemma ContentFits(q: Quiz, m: Meta, s: State)
    requires s.meta == Some(m) && Inv(q, q.contentVersion, s)
    ensures m.content == q.contentVersion
  {
  }

  lemma InvIsLegal(q: Quiz, s: State)
    requires Inv(q, q.contentVersion, s)
    ensures Legal(q, s) && s.meta.Some?
  {
  }

  lemma OpenRoomOutcome(q: Quiz, m: Meta, s: State, cmd: Command, now: int)
    requires LiveQuiz(q) && s.meta == Some(m) && Inv(q, q.contentVersion, s) && !cmd.Reset?
    requires Issued(q, cmd) && Ticking(now)
    ensures Inv(q, q.contentVersion, Step(s, q.contentVersion, cmd, now).0)
    ensures Step(s, q.contentVersion, cmd, now).1 != Fault
  {
    hide Inv, LiveQuiz, Preflight, RoomSound, JoinStep, StartStep, AnswerStep, SnapshotStep, Step;
    ServedDirectly(q, m, s, cmd, now);
    match cmd {
      case Join(_, _, _) => JoinOutcome(q, m, s, cmd);
      case Start(_, _, _, _) => StartOutcome(q, m, s, cmd, now);
      case Answer(_, _, _, _, _, _, _, _, _, _) => AnswerOutcome(q, m, s, cmd, now);
      case Snapshot(_) => SnapshotOutcome(q, m, s, cmd);
      case _ =>
    }
  }

  /** The room invariant is inductive, and no command of the Go store meets a fault:
      every storage guard of the script is silent in a legal room. */
  lemma StepKeepsLegal(q: Quiz, s: State, cmd: Command, now: int)
    requires LiveQuiz(q) && Legal(q, s) && Issued(q, cmd) && Ticking(now)
    ensures Legal(q, Step(s, q.contentVersion, cmd, now).0)
    ensures Step(s, q.contentVersion, cmd, now).1 != Fault
  {
    hide Inv, LiveQuiz, Served, Hollow;
    if cmd.Reset? || s.meta.None? {
      if cmd.Reset? || cmd.Seed? {
        assert cmd.manifest == ManifestOf(q) && 1 <= cmd.capacity <= 200;
        OpenedIsLegal(q, cmd.epoch, cmd.capacity);
      }
    } else {
      OpenRoomOutcome(q, s.meta.value, s, cmd, now);
      InvIsLegal(q, Step(s, q.contentVersion, cmd, now).0);
    }
  }
}
