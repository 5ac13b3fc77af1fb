/** Timed scoring as a property of runs: what a receipt earned is decided by the first
    successful start of its question in its epoch. */
module RoomTiming {
  import opened Domain
  import opened Attempt
  import opened Standings
  import opened Room
  import opened RoomInvariant
  import opened RoomSteps
  import opened RoomRuns

  function Duration(q: Quiz, qid: Id): int {
    var g := Lookup(q, qid);
    if g.Some? then g.value.study.timing.seconds * 1000 else 0
  }

  /** A start command for this participant and question. */
  predicate StartOf(cmd: Command, f: Field) {
    cmd.Start? && (cmd.pid, cmd.qid) == f
  }

  /** When the question was first started successfully in the epoch that is current
      after the first k events; a new epoch forgets it. */
  ghost function FirstStart(q: Quiz, s: State, events: seq<Event>, k: nat, f: Field): Option<int>
    requires k <= |events|
  {
    if k == 0 then None
    else
      var e := events[k - 1];
      var earlier := FirstStart(q, s, events, k - 1, f);
      if Renews(Before(q, s, events, k - 1), e.cmd) then None
      else if earlier.Some? then earlier
      else if StartOf(e.cmd, f) && ReplyTo(q, s, events, k - 1).Clock? then Some(e.now)
      else None
  }

  ghost predicate Kept(s: State, t: State, f: Field) {
    (f in t.timers <==> f in s.timers) && (f in s.timers ==> t.timers[f] == s.timers[f])
  }

  /** What one step of an open room does to one deadline. */
  lemma TimerStep(q: Quiz, s: State, cmd: Command, now: int, f: Field)
    requires LiveQuiz(q) && s.meta.Some? && Inv(q, q.contentVersion, s) && Issued(q, cmd) && Ticking(now)
    requires !cmd.Reset?
    ensures
      var (t, reply) := Step(s, q.contentVersion, cmd, now);
      if StartOf(cmd, f) && reply.Clock? && f !in s.timers
      then f in t.timers && t.timers[f] == now + Duration(q, f.1)
      else Kept(s, t, f)
  {
    hide Inv, LiveQuiz, Preflight, RoomSound, Step, Issued, JoinStep, AnswerStep, StartStep;
    var m := s.meta.value;
    ServedDirectly(q, m, s, cmd, now);
    if PidOf(cmd).Some? {
      MembersHavePlans(q, s, PidOf(cmd).value);
    }
    match cmd {
      case Join(_, _, _) => JoinKeepsTimers(q, m, s, cmd);
      case Start(_, _, _, _) => StartSetsTimer(q, m, s, cmd, now, f);
      case Answer(_, _, _, _, _, _, _, _, _, _) => AnswerKeepsTimers(q, m, s, cmd, now);
      case Snapshot(_) => SnapshotOutcome(q, m, s, cmd);
      case _ =>
    }
  }

  lemma JoinKeepsTimers(q: Quiz, m: Meta, s: State, cmd: Command)
    requires cmd.Join?
    ensures JoinStep(s, m, q.contentVersion, cmd).0.timers == s.timers
  {
    hide PlanFits;
  }

  lemma AnswerKeepsTimers(q: Quiz, m: Meta, s: State, cmd: Command, now: int)
    requires LiveQuiz(q) && s.meta == Some(m) && Inv(q, q.contentVersion, s) && cmd.Answer? && Issued(q, cmd)
    requires cmd.pid in s.participants ==> cmd.pid in s.attempts && cmd.pid in s.scores
    ensures AnswerStep(s, m, cmd, now).0.timers == s.timers
  {
    hide Inv, LiveQuiz, Issued, AnswerStep, Recorded, ReceiptOf;
    AnswerOutcome(q, m, s, cmd, now);
    if Commits(s, m, cmd) {
      AnswerCommits(q, m, s, cmd, now);
      RecordedMeta(m, s, cmd.pid, ReceiptOf(s, m, cmd, now));
    }
  }

  lemma StartSetsTimer(q: Quiz, m: Meta, s: State, cmd: Command, now: int, f: Field)
    requires cmd.Start? && Issued(q, cmd) && (cmd.pid in s.participants ==> cmd.pid in s.attempts)
    ensures
      var (t, reply) := StartStep(s, m, cmd, now);
      if StartOf(cmd, f) && reply.Clock? && f !in s.timers
      then f in t.timers && t.timers[f] == now + Duration(q, f.1)
      else Kept(s, t, f)
  {
    hide ManifestOf, Lookup;
  }

  /** In a run that begins before the first seeding, a stored deadline is the first
      start plus the question's duration, and there is one exactly when there was a
      start: restarts, answers and joins never move it. */
  lemma {:induction false} DeadlineIsFirstStart(q: Quiz, s: State, events: seq<Event>, k: nat, f: Field)
    requires LiveQuiz(q) && s.meta.None? && Hollow(s) && Proper(q, events) && k <= |events|
    ensures
      var first, t := FirstStart(q, s, events, k, f), Before(q, s, events, k);
      && (f in t.timers <==> first.Some?)
      && (first.Some? ==> t.timers[f] == first.value + Duration(q, f.1))
  {
    hide LiveQuiz, Inv, Issued, Step, Before, Served, StartOf, Duration;
    if k == 0 {
      StartsAt(q, s, events);
    } else {
      var b, e := Before(q, s, events, k - 1), events[k - 1];
      assert e in events;
      DeadlineIsFirstStart(q, s, events, k - 1, f);
      RunKeepsLegal(q, s, events, k - 1);
      BeforeNext(q, s, events, k - 1);
      if Renews(b, e.cmd) {
        RenewedRoom(q, b, e.cmd, e.now);
      } else if b.meta.None? {
        AbsentRoom(q, b, e.cmd, e.now);
      } else {
        TimerStep(q, b, e.cmd, e.now, f);
      }
    }
  }

  /** The award of a correct answer at time `now`, given the first start. */
  function AwardAt(q: Quiz, qid: Id, first: Option<int>, now: int): int {
    if first.Some? && now < first.value + Duration(q, qid) then 100 else 50
  }

  lemma ReceiptAward(q: Quiz, s: State, m: Meta, cmd: Command, now: int)
    requires cmd.Answer? && Issued(q, cmd)
    requires cmd.pid in s.attempts && cmd.pid in s.scores && cmd.qid in s.attempts[cmd.pid].optionOrders
    ensures
      var r := ReceiptOf(s, m, cmd, now);
      && r.questionId == cmd.qid && r.selectedOptionId == cmd.option && r.acceptedAtMs == now
      && r.submissionId == cmd.rid && r.epoch == m.epoch && r.acceptedVersion == m.version + 1
      && Lookup(q, cmd.qid).Some?
      && r.correctness == (cmd.option == Lookup(q, cmd.qid).value.correctOptionId)
      && r.timedOut == TimedOut(s.timers, (cmd.pid, cmd.qid), now)
      && r.deadlineMs == (if (cmd.pid, cmd.qid) in s.timers then s.timers[(cmd.pid, cmd.qid)] else 0)
      && r.pointsAwarded == PointsFor(r.correctness, r.timedOut)
  {
    hide ManifestOf, Lookup, Position, Ordered;
  }

  /** An accepted receipt earned 100 exactly when its option is correct and its question
      was first started in this epoch less than its duration ago, 50 when it is correct
      otherwise, and 0 when it is wrong. It names the submission, the option and the
      deadline, and it is timed out exactly when that deadline is past or was never set. */
  lemma TimedAward(q: Quiz, s: State, events: seq<Event>, k: nat, r: Receipt)
    requires LiveQuiz(q) && s.meta.None? && Hollow(s) && Proper(q, events) && k < |events|
    requires ReplyTo(q, s, events, k) == Scored(true, r)
    ensures events[k].cmd.Answer? && r.questionId == events[k].cmd.qid && Lookup(q, r.questionId).Some?
    ensures r.correctness == (events[k].cmd.option == Lookup(q, r.questionId).value.correctOptionId)
    ensures r.acceptedAtMs == events[k].now
    ensures r.submissionId == events[k].cmd.rid && r.selectedOptionId == events[k].cmd.option
    ensures
      var first := FirstStart(q, s, events, k, (events[k].cmd.pid, r.questionId));
      && r.deadlineMs == (if first.Some? then first.value + Duration(q, r.questionId) else 0)
      && (r.timedOut <==> first.None? || events[k].now >= first.value + Duration(q, r.questionId))
    ensures r.pointsAwarded ==
      if !r.correctness then 0
      else AwardAt(q, r.questionId, FirstStart(q, s, events, k, (events[k].cmd.pid, r.questionId)), events[k].now)
  {
    hide LiveQuiz, Inv, Issued, Step, Before, Recorded, ReceiptOf, FirstStart, Duration, Lookup;
    var b, e := Before(q, s, events, k), events[k];
    assert e in events;
    RunKeepsLegal(q, s, events, k);
    AcceptanceIsStored(q, b, e.cmd, e.now, r);
    ReceiptAward(q, b, b.meta.value, e.cmd, e.now);
    DeadlineIsFirstStart(q, s, events, k, (e.cmd.pid, e.cmd.qid));
  }

  // ---------- Every stored receipt has its commit ----------

  lemma AnswersStep(q: Quiz, s: State, cmd: Command, now: int, f: Field)
    requires LiveQuiz(q) && s.meta.Some? && Inv(q, q.contentVersion, s) && Issued(q, cmd) && Ticking(now)
    requires !cmd.Reset?
    ensures
      var (t, reply) := Step(s, q.contentVersion, cmd, now);
      f in t.answers && f !in s.answers ==>
        cmd.Answer? && f == (cmd.pid, cmd.qid) && reply == Scored(true, t.answers[f])
  {
    hide Inv, LiveQuiz, Preflight, RoomSound, Step, Issued, JoinStep, AnswerStep, StartStep, PlanFits;
    var m := s.meta.value;
    ServedDirectly(q, m, s, cmd, now);
    if PidOf(cmd).Some? {
      MembersHavePlans(q, s, PidOf(cmd).value);
    }
    match cmd {
      case Join(_, _, _) => JoinKeepsAnswers(q, m, s, cmd);
      case Start(_, _, _, _) => StartOutcome(q, m, s, cmd, now);
      case Answer(_, _, _, _, _, _, _, _, _, _) => AnswerAddsOne(q, m, s, cmd, now, f);
      case Snapshot(_) => SnapshotOutcome(q, m, s, cmd);
      case _ =>
    }
  }

  lemma JoinKeepsAnswers(q: Quiz, m: Meta, s: State, cmd: Command)
    requires cmd.Join?
    ensures JoinStep(s, m, q.contentVersion, cmd).0.answers == s.answers
  {
    hide PlanFits;
  }

  lemma AnswerAddsOne(q: Quiz, m: Meta, s: State, cmd: Command, now: int, f: Field)
    requires LiveQuiz(q) && s.meta == Some(m) && Inv(q, q.contentVersion, s) && cmd.Answer? && Issued(q, cmd)
    requires cmd.pid in s.participants ==> cmd.pid in s.attempts && cmd.pid in s.scores
    ensures
      var (t, reply) := AnswerStep(s, m, cmd, now);
      f in t.answers && f !in s.answers ==> f == (cmd.pid, cmd.qid) && reply == Scored(true, t.answers[f])
  {
    hide Inv, LiveQuiz, AnswerStep, Recorded, ReceiptOf;
    AnswerOutcome(q, m, s, cmd, now);
    if Commits(s, m, cmd) {
      AnswerCommits(q, m, s, cmd, now);
      ReceiptAward(q, s, m, cmd, now);
      RecordedAnswers(m, s, cmd.pid, ReceiptOf(s, m, cmd, now));
    }
  }

  lemma RecordedAnswers(m: Meta, s: State, pid: Id, r: Receipt)
    requires pid in s.participants && pid in s.attempts
    ensures Recorded(s, m, pid, r).answers == s.answers[(pid, r.questionId) := r]
  {
  }

  /** Event i accepted the receipt for participant f.0. */
  ghost predicate CommittedBy(q: Quiz, s: State, events: seq<Event>, i: nat, f: Field, r: Receipt) {
    && i < |events| && events[i].cmd.Answer? && (events[i].cmd.pid, events[i].cmd.qid) == f
    && ReplyTo(q, s, events, i) == Scored(true, r)
  }

  /** Nothing appears in the answers but what some earlier event accepted. */
  lemma {:induction false} EveryReceiptWasCommitted(q: Quiz, s: State, events: seq<Event>, k: nat, f: Field)
    requires LiveQuiz(q) && s.meta.None? && Hollow(s) && Proper(q, events) && k <= |events|
    requires f in Before(q, s, events, k).answers
    ensures exists i :: 0 <= i < k && CommittedBy(q, s, events, i, f, Before(q, s, events, k).answers[f])
  {
    hide LiveQuiz, Inv, Issued, Step, Before, Served;
    if k == 0 {
      StartsAt(q, s, events);
    } else {
      var b, e := Before(q, s, events, k - 1), events[k - 1];
      assert e in events;
      RunKeepsLegal(q, s, events, k - 1);
      BeforeNext(q, s, events, k - 1);
      if Renews(b, e.cmd) {
        RenewedRoom(q, b, e.cmd, e.now);
      } else if b.meta.None? {
        AbsentRoom(q, b, e.cmd, e.now);
      } else {
        AnswersStep(q, b, e.cmd, e.now, f);
        StepExtends(q, b, e.cmd, e.now);
        if f in b.answers {
          EveryReceiptWasCommitted(q, s, events, k - 1, f);
        } else {
          assert CommittedBy(q, s, events, k - 1, f, Before(q, s, events, k).answers[f]);
        }
      }
    }
  }
}
