/** What the room tells its callers: which reply a command gets in a legal room, exactly,
    and what the replies amount to over whole runs. */
module RoomReplies {
  import opened Domain
  import opened Attempt
  import opened Standings
  import opened Room
  import opened RoomInvariant
  import opened RoomSteps
  import opened RoomRuns
  import opened RoomTiming

  // ---------- Answers ----------

  /** The submission id was used before, for this question and option. */
  predicate UsedAlike(s: State, cmd: Command)
    requires cmd.Answer?
  {
    && (cmd.pid, cmd.rid) in s.requests
    && s.requests[(cmd.pid, cmd.rid)].questionId == cmd.qid
    && s.requests[(cmd.pid, cmd.rid)].selectedOptionId == cmd.option
  }

  /** What an answer is told, in each of the six cases there are: another epoch, no member,
      an id used for something else, the same answer again, a question answered before
      under another id, and a new answer. */
  ghost predicate AnswerTold(s: State, m: Meta, cmd: Command, reply: Reply)
    requires cmd.Answer?
  {
    var here := cmd.epoch == m.epoch && cmd.pid in s.participants;
    var used, answered := (cmd.pid, cmd.rid) in s.requests, (cmd.pid, cmd.qid) in s.answers;
    && (reply == Refused(EpochMismatch) <==> cmd.epoch != m.epoch)
    && (reply == Refused(NotJoined) <==> cmd.epoch == m.epoch && cmd.pid !in s.participants)
    && (reply == Refused(IdempotencyConflict) <==> here && used && !UsedAlike(s, cmd))
    && (reply.Scored? && !reply.isNew <==> here && UsedAlike(s, cmd))
    && (reply.Scored? && !reply.isNew ==> reply.receipt == s.requests[(cmd.pid, cmd.rid)])
    && (reply.AlreadyAnswered? <==> here && !used && answered)
    && (reply.AlreadyAnswered? ==> reply.receipt == s.answers[(cmd.pid, cmd.qid)])
    && (reply.Scored? && reply.isNew <==> here && !used && !answered)
  }

  lemma AnswerStepTells(s: State, m: Meta, cmd: Command, now: int)
    requires cmd.Answer? && (cmd.pid in s.participants ==> cmd.pid in s.attempts && cmd.pid in s.scores)
    requires !Commits(s, m, cmd)
    ensures AnswerTold(s, m, cmd, AnswerStep(s, m, cmd, now).1)
    ensures AnswerStep(s, m, cmd, now).0 == s
  {
    hide Recorded, ReceiptFor, Resolved;
  }

  lemma CommitChanges(s: State, m: Meta, pid: Id, r: Receipt)
    requires s.meta == Some(m) && pid in s.participants && pid in s.attempts
    ensures Recorded(s, m, pid, r) != s
  {
    RecordedMeta(m, s, pid, r);
  }

  /** In a legal room each answer the store issues gets exactly one of six replies, decided
      by epoch, membership, submission id and question, and the room changes exactly when
      the answer is new. */
  lemma AnswerIsTold(q: Quiz, m: Meta, s: State, cmd: Command, now: int)
    requires LiveQuiz(q) && s.meta == Some(m) && Inv(q, q.contentVersion, s) && cmd.Answer? && Issued(q, cmd)
    ensures AnswerTold(s, m, cmd, Step(s, q.contentVersion, cmd, now).1)
    ensures Step(s, q.contentVersion, cmd, now).0 != s <==> Commits(s, m, cmd)
  {
    hide Inv, LiveQuiz, Issued, Step, Recorded, ReceiptOf, AnswerStep;
    AnswerReply(q, m, s, cmd, now);
    if Commits(s, m, cmd) {
      AnswerCommits(q, m, s, cmd, now);
      CommitChanges(s, m, cmd.pid, ReceiptOf(s, m, cmd, now));
    } else {
      AnswerStepTells(s, m, cmd, now);
    }
  }

  /** Over runs: once an answer was accepted, any later answer of that participant to that
      question in that epoch under a new submission id gets the same receipt back, whatever
      option it names, and changes nothing. */
  lemma AnsweredStaysAnswered(q: Quiz, s: State, events: seq<Event>, i: nat, j: nat, r: Receipt, again: Command,
      now: int)
    requires LiveQuiz(q) && Legal(q, s) && Proper(q, events) && FreshEpochs(s, events)
    requires i < j <= |events| && ReplyTo(q, s, events, i) == Scored(true, r)
    requires Before(q, s, events, j).meta.Some? && Before(q, s, events, j).meta.value.epoch == r.epoch
    requires events[i].cmd.Answer? && again.Answer? && Issued(q, again)
    requires again.pid == events[i].cmd.pid && again.qid == r.questionId && again.epoch == r.epoch
    requires (again.pid, again.rid) !in Before(q, s, events, j).requests
    ensures Step(Before(q, s, events, j), q.contentVersion, again, now) ==
      (Before(q, s, events, j), AlreadyAnswered(r))
  {
    hide LiveQuiz, Legal, Inv, Issued, Step, Before, FreshEpochs, Proper, AnswerStep;
    AcceptanceLasts(q, s, events, i, j, r);
    var t := Before(q, s, events, j);
    AnswerIsTold(q, t.meta.value, t, again, now);
    RequesterIsMember(q, t.meta.value, t, (again.pid, r.submissionId));
  }

  // ---------- Starts ----------

  /** What a start is told: the deadline that is then stored, unless the epoch is another,
      the caller no member, or the question answered without ever having been started. */
  ghost predicate StartTold(s: State, m: Meta, cmd: Command, now: int, t: State, reply: Reply)
    requires cmd.Start?
  {
    var here := cmd.epoch == m.epoch && cmd.pid in s.participants;
    var f := (cmd.pid, cmd.qid);
    && (reply == Refused(EpochMismatch) <==> cmd.epoch != m.epoch)
    && (reply == Refused(NotJoined) <==> cmd.epoch == m.epoch && cmd.pid !in s.participants)
    && (reply == Refused(QuestionAlreadyAnswered) <==> here && f !in s.timers && f in s.answers)
    && (reply.Clock? <==> here && (f in s.timers || f !in s.answers))
    && (reply.Clock? ==> f in t.timers && reply == Clock(m.epoch, cmd.qid, t.timers[f], now))
    && (t != s <==> here && f !in s.timers && f !in s.answers)
  }

  lemma QuestionPlanned(q: Quiz, s: State, pid: Id, qid: Id)
    requires Inv(q, q.contentVersion, s) && pid in s.attempts && qid in ManifestOf(q)
    ensures qid in s.attempts[pid].optionOrders
  {
    hide AllProgress, Receipts, Mirrored, OneVersionEach, MetaFits, Timers, ManifestOf, PlanFits;
    PlanOf(q, q.contentVersion, s, pid);
    PlanListsQuestion(ManifestOf(q), q.contentVersion, s.attempts[pid], qid);
  }

  lemma StoredDeadline(q: Quiz, s: State, f: Field)
    requires Inv(q, q.contentVersion, s) && f in s.timers
    ensures 0 < s.timers[f] <= MAX_SAFE
  {
    hide PlansFit, AllProgress, Receipts, Mirrored, OneVersionEach, MetaFits;
  }

  lemma StartStepTells(q: Quiz, s: State, m: Meta, cmd: Command, now: int)
    requires LiveQuiz(q) && cmd.Start? && Issued(q, cmd) && (cmd.pid in s.participants ==> cmd.pid in s.attempts)
    requires cmd.pid in s.participants ==> cmd.qid in s.attempts[cmd.pid].optionOrders
    requires (cmd.pid, cmd.qid) in s.timers ==> 0 < s.timers[(cmd.pid, cmd.qid)] <= MAX_SAFE
    ensures StartTold(s, m, cmd, now, StartStep(s, m, cmd, now).0, StartStep(s, m, cmd, now).1)
  {
    hide LiveQuiz, ManifestOf, Lookup;
    EntryValid(q, cmd.qid);
    var f := (cmd.pid, cmd.qid);
    assert f !in s.timers ==> s.(timers := s.timers[f := now + cmd.durationMs]).timers != s.timers;
  }

  /** In a legal room a start is told the deadline exactly when the question has one already
      or is still open; a repeated start is told the deadline stored before. */
  lemma StartIsTold(q: Quiz, m: Meta, s: State, cmd: Command, now: int)
    requires LiveQuiz(q) && s.meta == Some(m) && Inv(q, q.contentVersion, s)
    requires cmd.Start? && Issued(q, cmd) && Ticking(now)
    ensures StartTold(s, m, cmd, now, Step(s, q.contentVersion, cmd, now).0, Step(s, q.contentVersion, cmd, now).1)
  {
    hide Inv, LiveQuiz, Step, StartStep, StartTold, Preflight, RoomSound, ManifestOf;
    ServedDirectly(q, m, s, cmd, now);
    MembersHavePlans(q, s, cmd.pid);
    if cmd.pid in s.participants {
      QuestionPlanned(q, s, cmd.pid, cmd.qid);
    }
    if (cmd.pid, cmd.qid) in s.timers {
      StoredDeadline(q, s, (cmd.pid, cmd.qid));
    }
    StartStepTells(q, s, m, cmd, now);
  }

  /** Over runs: whoever starts a question, for the first time or again, is told the first
      successful start of the epoch plus the question's duration. */
  lemma ClockIsFirstStart(q: Quiz, s: State, events: seq<Event>, k: nat)
    requires LiveQuiz(q) && s.meta.None? && Hollow(s) && Proper(q, events) && k < |events|
    requires events[k].cmd.Start? && ReplyTo(q, s, events, k).Clock?
    ensures
      var cmd, now := events[k].cmd, events[k].now;
      var first := FirstStart(q, s, events, k + 1, (cmd.pid, cmd.qid));
      && first.Some?
      && ReplyTo(q, s, events, k) == Clock(cmd.epoch, cmd.qid, first.value + Duration(q, cmd.qid), now)
  {
    hide LiveQuiz, Inv, Issued, Step, Before, FirstStart, Duration, Proper;
    var b, e := Before(q, s, events, k), events[k];
    ProperEvent(q, events, k);
    RunKeepsLegal(q, s, events, k);
    BeforeNext(q, s, events, k);
    DeadlineIsFirstStart(q, s, events, k + 1, (e.cmd.pid, e.cmd.qid));
    if b.meta.None? {
      AbsentRoom(q, b, e.cmd, e.now);
    } else {
      StartIsTold(q, b.meta.value, b, e.cmd, e.now);
    }
  }

  lemma ProperEvent(q: Quiz, events: seq<Event>, k: nat)
    requires Proper(q, events) && k < |events|
    ensures Issued(q, events[k].cmd) && Ticking(events[k].now)
  {
    hide Issued;
    assert events[k] in events;
  }

  // ---------- Joins ----------

  /** What a join is told: a member is always let in again; a newcomer is let in, asked for
      a plan, or turned away by a full room. */
  ghost predicate JoinTold(s: State, m: Meta, cmd: Command, t: State, reply: Reply)
    requires cmd.Join?
  {
    var member, full := cmd.pid in s.participants, |s.participants| >= m.capacity;
    && (reply == Entered(false, m.epoch, m.version) <==> member)
    && (reply == Refused(QuizFull) <==> !member && full)
    && (reply == Refused(PlanRequired) <==> !member && !full && cmd.plan.None?)
    && (reply == Entered(true, m.epoch, m.version + 1) <==> !member && !full && cmd.plan.Some?)
    && (t != s <==> !member && !full && cmd.plan.Some?)
  }

  /** The room with one more member, who has the name and the plan of the command, no points
      and every question before them. */
  ghost predicate LetIn(s: State, m: Meta, cmd: Command, t: State)
    requires cmd.Join? && cmd.plan.Some?
  {
    && t.participants == s.participants[cmd.pid := Member(cmd.name, 0, 0)]
    && t.attempts == s.attempts[cmd.pid := cmd.plan.value] && t.scores == s.scores[cmd.pid := 0]
    && t.answers == s.answers && t.requests == s.requests && t.timers == s.timers
    && t.meta == Some(m.(version := m.version + 1))
  }

  /** In a legal room a join gets exactly one of four replies. */
  lemma JoinIsTold(q: Quiz, m: Meta, s: State, cmd: Command, now: int)
    requires LiveQuiz(q) && s.meta == Some(m) && Inv(q, q.contentVersion, s) && cmd.Join? && Issued(q, cmd)
    ensures JoinTold(s, m, cmd, Step(s, q.contentVersion, cmd, now).0, Step(s, q.contentVersion, cmd, now).1)
    ensures Step(s, q.contentVersion, cmd, now).0 != s ==> LetIn(s, m, cmd, Step(s, q.contentVersion, cmd, now).0)
  {
    hide Inv, LiveQuiz, Step, Preflight, RoomSound, PlanFits, ManifestOf;
    ServedDirectly(q, m, s, cmd, now);
    RoomManifest(q, m, s);
  }

  lemma RoomManifest(q: Quiz, m: Meta, s: State)
    requires s.meta == Some(m) && Inv(q, q.contentVersion, s)
    ensures m.manifest == ManifestOf(q) && |s.participants| <= m.capacity
  {
    hide PlansFit, AllProgress, Receipts, Mirrored, OneVersionEach, Timers, ManifestOf;
  }

  /** The event by which the participant came into the current room. */
  ghost function Entry(q: Quiz, s: State, events: seq<Event>, k: nat, pid: Id): Option<nat>
    requires k <= |events|
  {
    if k == 0 then None
    else
      var e := events[k - 1];
      var earlier := Entry(q, s, events, k - 1, pid);
      if Renews(Before(q, s, events, k - 1), e.cmd) then None
      else if earlier.Some? then earlier
      else if e.cmd.Join? && e.cmd.pid == pid && LetsIn(ReplyTo(q, s, events, k - 1)) then Some(k - 1)
      else None
  }

  predicate LetsIn(reply: Reply) { reply.Entered? && reply.isNew }

  /** Name and plan of a member. */
  ghost predicate Registered(s: State, pid: Id, name: string, plan: Plan) {
    pid in s.participants && s.participants[pid].name == name && pid in s.attempts && s.attempts[pid] == plan
  }

  /** Membership, name and plan are those of another room. */
  ghost predicate SameMember(s: State, t: State, pid: Id) {
    && (pid in t.participants <==> pid in s.participants) && (pid in t.attempts <==> pid in s.attempts)
    && (pid in s.participants ==> t.participants[pid].name == s.participants[pid].name)
    && (pid in s.attempts ==> t.attempts[pid] == s.attempts[pid])
  }

  lemma RecordedMembers(s: State, m: Meta, pid: Id, r: Receipt, other: Id)
    requires pid in s.participants && pid in s.attempts
    ensures SameMember(s, Recorded(s, m, pid, r), other)
  {
    hide FirstOpen;
  }

  lemma AnswerKeepsMembers(q: Quiz, m: Meta, s: State, cmd: Command, now: int, pid: Id)
    requires LiveQuiz(q) && s.meta == Some(m) && Inv(q, q.contentVersion, s) && cmd.Answer? && Issued(q, cmd)
    ensures SameMember(s, Step(s, q.contentVersion, cmd, now).0, pid)
  {
    hide Inv, LiveQuiz, Issued, Step, Recorded, ReceiptOf, AnswerStep, SameMember;
    AnswerReply(q, m, s, cmd, now);
    SameMemberItself(s, pid);
    if Commits(s, m, cmd) {
      AnswerCommits(q, m, s, cmd, now);
      RecordedMembers(s, m, cmd.pid, ReceiptOf(s, m, cmd, now), pid);
    } else {
      AnswerStepTells(s, m, cmd, now);
    }
  }

  lemma SameMemberItself(s: State, pid: Id)
    ensures SameMember(s, s, pid)
  {
  }

  lemma TimersKeepMembers(s: State, t: State, pid: Id)
    requires t == s.(timers := t.timers)
    ensures SameMember(s, t, pid)
  {
  }

  lemma JoinRegisters(q: Quiz, m: Meta, s: State, cmd: Command, now: int, pid: Id)
    requires LiveQuiz(q) && s.meta == Some(m) && Inv(q, q.contentVersion, s) && cmd.Join? && Issued(q, cmd)
    ensures
      var (t, reply) := Step(s, q.contentVersion, cmd, now);
      if cmd.pid == pid && LetsIn(reply) then
        pid !in s.participants && cmd.plan.Some? && Registered(t, pid, cmd.name, cmd.plan.value)
      else SameMember(s, t, pid)
  {
    hide Inv, LiveQuiz, Issued, Step;
    JoinIsTold(q, m, s, cmd, now);
    MembersHavePlans(q, s, cmd.pid);
  }

  /** What a step does to one participant's membership, name and plan. */
  lemma MemberStep(q: Quiz, s: State, cmd: Command, now: int, pid: Id)
    requires LiveQuiz(q) && s.meta.Some? && Inv(q, q.contentVersion, s) && Issued(q, cmd) && Ticking(now)
    requires !cmd.Reset?
    ensures
      var (t, reply) := Step(s, q.contentVersion, cmd, now);
      if cmd.Join? && cmd.pid == pid && LetsIn(reply) then
        pid !in s.participants && cmd.plan.Some? && Registered(t, pid, cmd.name, cmd.plan.value)
      else SameMember(s, t, pid)
  {
    hide Inv, LiveQuiz, Preflight, RoomSound, Step, Issued, StartStep, AnswerStep, JoinStep, SnapshotStep, SameMember,
      Registered;
    var m := s.meta.value;
    SameMemberItself(s, pid);
    match cmd {
      case Join(_, _, _) => JoinRegisters(q, m, s, cmd, now, pid);
      case Answer(_, _, _, _, _, _, _, _, _, _) => AnswerKeepsMembers(q, m, s, cmd, now, pid);
      case Start(_, _, _, _) =>
        ServedDirectly(q, m, s, cmd, now);
        StartOutcome(q, m, s, cmd, now);
        TimersKeepMembers(s, Step(s, q.contentVersion, cmd, now).0, pid);
      case Snapshot(_) =>
        ServedDirectly(q, m, s, cmd, now);
        SnapshotOutcome(q, m, s, cmd);
      case _ => ServedDirectly(q, m, s, cmd, now);
    }
  }

  /** In a run that begins before the first seeding: a participant is a member exactly when
      some event let them into this room, and their name and plan are those of that event,
      whatever name and plan later joins carry. */
  lemma {:induction false} MemberIsAsEntered(q: Quiz, s: State, events: seq<Event>, k: nat, pid: Id)
    requires LiveQuiz(q) && s.meta.None? && Hollow(s) && Proper(q, events) && k <= |events|
    ensures
      var entry, t := Entry(q, s, events, k, pid), Before(q, s, events, k);
      && (pid in t.participants <==> entry.Some?)
      && (entry.Some? ==>
            && entry.value < k && events[entry.value].cmd.Join? && events[entry.value].cmd.pid == pid
            && events[entry.value].cmd.plan.Some? && LetsIn(ReplyTo(q, s, events, entry.value))
            && Registered(t, pid, events[entry.value].cmd.name, events[entry.value].cmd.plan.value))
  {
    hide LiveQuiz, Inv, Issued, Step, Before, Served, Proper;
    if k == 0 {
      StartsAt(q, s, events);
    } else {
      var b, e := Before(q, s, events, k - 1), events[k - 1];
      ProperEvent(q, events, k - 1);
      MemberIsAsEntered(q, s, events, k - 1, pid);
      RunKeepsLegal(q, s, events, k - 1);
      BeforeNext(q, s, events, k - 1);
      if Renews(b, e.cmd) {
        RenewedRoom(q, b, e.cmd, e.now);
      } else if b.meta.None? {
        AbsentRoom(q, b, e.cmd, e.now);
      } else {
        MemberStep(q, b, e.cmd, e.now, pid);
      }
    }
  }

  // ---------- Openings ----------

  /** A reset, and a seed of a room that is not there, report the new room; a seed of one
      that is there reports it and leaves it alone, and so does a preview. */
  lemma OpeningIsTold(q: Quiz, s: State, cmd: Command, now: int)
    requires LiveQuiz(q) && Legal(q, s) && Issued(q, cmd) && (Opens(cmd) || cmd.Preview?)
    ensures
      var (t, reply) := Step(s, q.contentVersion, cmd, now);
      if Renews(s, cmd) then
        && reply == Sealed(cmd.epoch, 0) && Hollow(t)
        && t.meta == Some(Meta(cmd.epoch, 0, q.contentVersion, cmd.capacity, ManifestOf(q), None))
      else
        && t == s
        && reply == (if s.meta.None? then Refused(QuizNotFound)
                     else if cmd.Preview? then Previewed
                     else Sealed(s.meta.value.epoch, s.meta.value.version))
  {
    hide Inv, LiveQuiz, ManifestOf, Served;
    if s.meta.Some? && !cmd.Reset? {
      ServedDirectly(q, s.meta.value, s, cmd, now);
      ServedOpening(s, s.meta.value, q.contentVersion, cmd, now);
    }
  }

  lemma ServedOpening(s: State, m: Meta, content: Id, cmd: Command, now: int)
    requires RoomSound(s, m)
    ensures cmd.Seed? ==> Served(s, m, content, cmd, now) == (s, Sealed(m.epoch, m.version))
    ensures cmd.Preview? ==> Served(s, m, content, cmd, now) == (s, Previewed)
  {
    hide RoomSound;
  }

  /** The event that opened the current room. */
  ghost function Opening(q: Quiz, s: State, events: seq<Event>, k: nat): Option<nat>
    requires k <= |events|
  {
    if k == 0 then None
    else if Renews(Before(q, s, events, k - 1), events[k - 1].cmd) then Some(k - 1)
    else Opening(q, s, events, k - 1)
  }

  ghost predicate OpenedBy(m: Meta, q: Quiz, cmd: Command) {
    && Opens(cmd) && m.epoch == cmd.epoch && m.capacity == cmd.capacity
    && m.manifest == ManifestOf(q) && m.content == q.contentVersion
  }

  /** A step that does not renew the room changes its version at most. */
  lemma MetaStep(q: Quiz, s: State, cmd: Command, now: int)
    requires LiveQuiz(q) && s.meta.Some? && Inv(q, q.contentVersion, s) && Issued(q, cmd) && Ticking(now)
    requires !cmd.Reset?
    ensures
      var t := Step(s, q.contentVersion, cmd, now).0;
      t.meta.Some? && t.meta.value == s.meta.value.(version := t.meta.value.version)
  {
    hide Inv, LiveQuiz, Preflight, RoomSound, Step, Issued, StartStep, AnswerStep, JoinStep, SnapshotStep, Recorded,
      ReceiptOf;
    var m := s.meta.value;
    ServedDirectly(q, m, s, cmd, now);
    match cmd {
      case Join(_, _, _) => JoinIsTold(q, m, s, cmd, now);
      case Answer(_, _, _, _, _, _, _, _, _, _) =>
        AnswerReply(q, m, s, cmd, now);
        if Commits(s, m, cmd) {
          AnswerCommits(q, m, s, cmd, now);
          RecordedMeta(m, s, cmd.pid, ReceiptOf(s, m, cmd, now));
        } else {
          AnswerStepTells(s, m, cmd, now);
        }
      case Start(_, _, _, _) => StartOutcome(q, m, s, cmd, now);
      case Snapshot(_) => SnapshotOutcome(q, m, s, cmd);
      case _ =>
    }
  }

  /** In a run that begins before the first seeding, the room has the epoch, the capacity and
      the questions of the seed or reset that opened it, never more members than that
      capacity, and one version for each member and each answer. */
  lemma {:induction false} RoomIsAsOpened(q: Quiz, s: State, events: seq<Event>, k: nat)
    requires LiveQuiz(q) && s.meta.None? && Hollow(s) && Proper(q, events) && k <= |events|
    ensures
      var opening, t := Opening(q, s, events, k), Before(q, s, events, k);
      && (t.meta.Some? <==> opening.Some?)
      && (opening.Some? ==>
            && opening.value < k && OpenedBy(t.meta.value, q, events[opening.value].cmd)
            && |t.participants| <= events[opening.value].cmd.capacity
            && t.meta.value.version == |t.participants| + |t.answers|)
  {
    hide LiveQuiz, Inv, Issued, Step, Before, Served, Proper, ManifestOf;
    if k == 0 {
      StartsAt(q, s, events);
    } else {
      var b, e := Before(q, s, events, k - 1), events[k - 1];
      ProperEvent(q, events, k - 1);
      RoomIsAsOpened(q, s, events, k - 1);
      RunKeepsLegal(q, s, events, k - 1);
      RunKeepsLegal(q, s, events, k);
      BeforeNext(q, s, events, k - 1);
      if Renews(b, e.cmd) {
        OpeningIsTold(q, b, e.cmd, e.now);
        MetaOf(q, Before(q, s, events, k));
      } else if b.meta.None? {
        AbsentRoom(q, b, e.cmd, e.now);
      } else {
        MetaStep(q, b, e.cmd, e.now);
        MetaOf(q, Before(q, s, events, k));
      }
    }
  }

  lemma MetaOf(q: Quiz, s: State)
    requires Inv(q, q.contentVersion, s)
    ensures MetaFits(q, q.contentVersion, s.meta.value, s)
  {
    hide PlansFit, AllProgress, Receipts, Mirrored, OneVersionEach, Timers, MetaFits;
  }

  // ---------- Rooms that are not as they should be ----------

  /** Numbers that no run leaves behind: a version or capacity out of range, maps of different
      sizes, or more members than there is room for. */
  predicate Corrupt(s: State, m: Meta) {
    || m.version < 0 || m.version > 1000000 || m.capacity < 0 || m.capacity > 200
    || |s.participants| != |s.scores| || |s.participants| != |s.attempts| || |s.participants| > m.capacity
  }

  /** A member whose figures are not those of their answers: no plan or one that does not fit,
      a count or cursor that does not follow the answers, or a score they cannot have earned. */
  ghost predicate CorruptMember(s: State, m: Meta, pid: Id) {
    && pid in s.participants
    && (|| pid !in s.attempts || !PlanFits(m.manifest, m.content, s.attempts[pid])
        || s.participants[pid].count != AnsweredIn(s.attempts[pid].questionOrder, s.answers.Keys, pid)
        || s.participants[pid].cursor != FirstOpen(s.attempts[pid].questionOrder, s.answers.Keys, pid)
        || pid !in s.scores || s.scores[pid] < 0 || s.scores[pid] % 50 != 0
        || s.scores[pid] > 100 * s.participants[pid].count)
  }

  /** Score or plan of someone who is not a member. */
  predicate Stray(s: State, pid: Id) {
    pid !in s.participants && (pid in s.scores || pid in s.attempts)
  }

  /** Every command but a reset leaves a corrupt room alone and fails, and so does a command
      that names a corrupt member, or comes for other content than the room's and is no seed. */
  lemma CorruptRoomIsLeftAlone(s: State, m: Meta, content: Id, cmd: Command, now: int)
    requires s.meta == Some(m) && !cmd.Reset?
    requires
      || (m.content == content && Corrupt(s, m))
      || (m.content == content && PidOf(cmd).Some? &&
            (CorruptMember(s, m, PidOf(cmd).value) || Stray(s, PidOf(cmd).value)))
      || (m.content == content && !Opens(cmd) && !cmd.Preview? && !(4 <= |m.manifest| <= 8))
      || (m.content != content && !cmd.Seed?)
    ensures Step(s, content, cmd, now) == (s, Fault)
  {
    hide PlanFits, AnsweredIn, FirstOpen, JoinStep, StartStep, AnswerStep, SnapshotStep;
  }

  /** Something of a room is left although there is none. */
  predicate Leftover(s: State) {
    s.participants != map[] || s.scores != map[] || s.answers != map[] || s.requests != map[] || s.attempts != map[]
    || s.timers != map[]
  }

  /** A reset, or a seed where there is no room, opens one exactly when the capacity is 1 to 200
      and, for a seed, nothing of an old room is left; otherwise it fails without a write. Every
      other command where there is no room is told so. */
  lemma OpensExactly(s: State, content: Id, cmd: Command, now: int)
    requires Renews(s, cmd) || s.meta.None?
    ensures Step(s, content, cmd, now) ==
      if !Renews(s, cmd) then (s, Refused(QuizNotFound))
      else if 1 <= cmd.capacity <= 200 && (cmd.Reset? || !Leftover(s)) then
        (Opened(cmd.epoch, content, cmd.capacity, cmd.manifest), Sealed(cmd.epoch, 0))
      else (s, Fault)
  {
    hide Served, Opened;
  }

  lemma PlannedExactly(q: Quiz, s: State, pid: Id, qid: Id)
    requires Inv(q, q.contentVersion, s) && pid in s.attempts
    ensures qid in s.attempts[pid].optionOrders <==> qid in ManifestOf(q)
    ensures qid in s.attempts[pid].questionOrder <==> qid in ManifestOf(q)
  {
    hide AllProgress, Receipts, Mirrored, OneVersionEach, MetaFits, Timers, ManifestOf, PlanFits;
    PlanOf(q, q.contentVersion, s, pid);
    FitsExactly(ManifestOf(q), q.contentVersion, s.attempts[pid], qid);
  }

  lemma FitsExactly(manifest: Manifest, version: Id, plan: Plan, qid: Id)
    requires PlanFits(manifest, version, plan)
    ensures qid in plan.optionOrders <==> qid in manifest
    ensures qid in plan.questionOrder <==> qid in manifest
  {
  }

  /** Arguments that the store never passes write nothing in a legal room: a plan that does not
      fit, a question that is not the quiz's, a duration out of range, points other than 0 and
      100, options that leave out one that the plan lists. */
  lemma UnfitArgumentsWriteNothing(q: Quiz, m: Meta, s: State, cmd: Command, now: int)
    requires LiveQuiz(q) && s.meta == Some(m) && Inv(q, q.contentVersion, s)
    requires
      || (cmd.Join? && cmd.pid !in s.participants && cmd.plan.Some?
          && !PlanFits(ManifestOf(q), q.contentVersion, cmd.plan.value))
      || (cmd.Start? && (cmd.qid !in ManifestOf(q) || !(0 < cmd.durationMs <= 120000)))
      || (cmd.Answer? && (cmd.qid !in ManifestOf(q) || (cmd.points != 0 && cmd.points != 100)))
      || (cmd.Answer? && cmd.pid in s.attempts && cmd.qid in s.attempts[cmd.pid].optionOrders
          && Resolved(cmd.question.options, s.attempts[cmd.pid].optionOrders[cmd.qid]).None?)
    ensures Step(s, q.contentVersion, cmd, now).0 == s
    ensures cmd.Start? && cmd.epoch == m.epoch && cmd.pid in s.participants && cmd.qid !in ManifestOf(q) ==>
      Step(s, q.contentVersion, cmd, now).1 == Refused(QuestionNotFound)
    ensures Commits(s, m, cmd) ==> Step(s, q.contentVersion, cmd, now).1 == Fault
  {
    hide Inv, LiveQuiz, Preflight, RoomSound, Step, PlanFits, ManifestOf, Recorded, ReceiptFor, Resolved;
    ServedDirectly(q, m, s, cmd, now);
    RoomManifest(q, m, s);
    if PidOf(cmd).Some? {
      MembersHavePlans(q, s, PidOf(cmd).value);
    }
    if (cmd.Start? || cmd.Answer?) && cmd.pid in s.attempts {
      PlannedExactly(q, s, cmd.pid, cmd.qid);
    }
  }
}
