/** Properties of whole runs of a room: any commands of the Go store, in any order,
    at any times, with resets. */
module RoomRuns {
  import opened Domain
  import opened Attempt
  import opened Standings
  import opened Room
  import opened RoomInvariant
  import opened RoomSteps

  datatype Event = Event(cmd: Command, now: int)

  ghost predicate Proper(q: Quiz, events: seq<Event>) {
    forall e {:trigger Issued(q, e.cmd)} :: e in events ==> Issued(q, e.cmd) && Ticking(e.now)
  }

  ghost function After(q: Quiz, s: State, events: seq<Event>): State {
    if events == [] then s
    else
      var last := |events| - 1;
      Step(After(q, s, events[..last]), q.contentVersion, events[last].cmd, events[last].now).0
  }

  /** The state before event k and the reply to it. */
  ghost function Before(q: Quiz, s: State, events: seq<Event>, k: nat): State
    requires k <= |events|
  {
    After(q, s, events[..k])
  }

  ghost function ReplyTo(q: Quiz, s: State, events: seq<Event>, k: nat): Reply
    requires k < |events|
  {
    Step(Before(q, s, events, k), q.contentVersion, events[k].cmd, events[k].now).1
  }

  lemma BeforeNext(q: Quiz, s: State, events: seq<Event>, k: nat)
    requires k < |events|
    ensures Before(q, s, events, k + 1)
      == Step(Before(q, s, events, k), q.contentVersion, events[k].cmd, events[k].now).0
    ensures Before(q, s, events, 0) == s
  {
    assert events[..k + 1][..k] == events[..k];
  }

  lemma {:induction false} RunKeepsLegal(q: Quiz, s: State, events: seq<Event>, k: nat)
    requires LiveQuiz(q) && Legal(q, s) && Proper(q, events) && k <= |events|
    ensures Legal(q, Before(q, s, events, k))
  {
    hide LiveQuiz, Legal, Issued, Step, Before;
    if k > 0 {
      RunKeepsLegal(q, s, events, k - 1);
      BeforeNext(q, s, events, k - 1);
      assert events[k - 1] in events;
      StepKeepsLegal(q, Before(q, s, events, k - 1), events[k - 1].cmd, events[k - 1].now);
    } else {
      StartsAt(q, s, events);
    }
  }

  lemma StartsAt(q: Quiz, s: State, events: seq<Event>)
    ensures Before(q, s, events, 0) == s
  {
  }

  // ---------- Within an epoch nothing is lost ----------

  ghost predicate Includes<K, V>(small: map<K, V>, large: map<K, V>) {
    forall k :: k in small ==> k in large && large[k] == small[k]
  }

  /** `t` continues the room of `s`: plans, answers, requests and deadlines stay, and
      equal versions mean that nothing but deadlines was added. */
  ghost predicate Extends(s: State, t: State) {
    && s.meta.Some? && t.meta.Some?
    && t.meta.value.epoch == s.meta.value.epoch
    && s.meta.value.version <= t.meta.value.version
    && Includes(s.attempts, t.attempts) && Includes(s.answers, t.answers)
    && Includes(s.requests, t.requests) && Includes(s.timers, t.timers)
    && (s.meta.value.version == t.meta.value.version ==> t == s.(timers := t.timers))
  }

  lemma ExtendsTransitive(s: State, t: State, u: State)
    requires Extends(s, t) && Extends(t, u)
    ensures Extends(s, u)
  {
  }

  lemma JoinExtends(s: State, m: Meta, pid: Id, name: string, plan: Plan)
    requires s.meta == Some(m) && pid !in s.attempts
    ensures Extends(s, Admitted(s, m, pid, name, plan))
  {
  }

  lemma AnswerExtends(s: State, m: Meta, pid: Id, r: Receipt)
    requires s.meta == Some(m) && pid in s.participants && pid in s.attempts
    requires (pid, r.questionId) !in s.answers && (pid, r.submissionId) !in s.requests
    ensures Extends(s, Recorded(s, m, pid, r))
  {
    hide FirstOpen;
  }

  lemma MembersHavePlans(q: Quiz, s: State, pid: Id)
    requires Inv(q, q.contentVersion, s)
    ensures pid in s.participants <==> pid in s.attempts
    ensures pid in s.participants <==> pid in s.scores
  {
    hide PlansFit, AllProgress, Receipts, Mirrored, OneVersionEach, MetaFits;
    assert pid in s.participants.Keys <==> pid in s.attempts.Keys;
    assert pid in s.participants.Keys <==> pid in s.scores.Keys;
  }

  lemma JoinStepExtends(q: Quiz, m: Meta, s: State, cmd: Command)
    requires s.meta == Some(m) && Inv(q, q.contentVersion, s) && cmd.Join?
    ensures Extends(s, JoinStep(s, m, q.contentVersion, cmd).0)
    ensures !JoinStep(s, m, q.contentVersion, cmd).1.Scored?
  {
    hide Inv, PlanFits, Admitted, Extends;
    MembersHavePlans(q, s, cmd.pid);
    if cmd.pid !in s.participants && cmd.plan.Some? {
      JoinExtends(s, m, cmd.pid, cmd.name, cmd.plan.value);
    }
    ExtendsItself(s);
  }

  lemma ExtendsItself(s: State)
    requires s.meta.Some?
    ensures Extends(s, s)
  {
  }

  lemma AnswerStepExtends(q: Quiz, m: Meta, s: State, cmd: Command, now: int)
    requires LiveQuiz(q) && s.meta == Some(m) && Inv(q, q.contentVersion, s) && cmd.Answer? && Issued(q, cmd)
    ensures cmd.pid in s.participants ==> cmd.pid in s.attempts && cmd.pid in s.scores
    ensures Extends(s, AnswerStep(s, m, cmd, now).0)
  {
    hide Inv, LiveQuiz, Issued, AnswerStep, Recorded, Extends, ReceiptOf;
    AnswerOutcome(q, m, s, cmd, now);
    ExtendsItself(s);
    if Commits(s, m, cmd) {
      AnswerCommits(q, m, s, cmd, now);
      AnswerExtends(s, m, cmd.pid, ReceiptOf(s, m, cmd, now));
    }
  }

  lemma StartStepExtends(q: Quiz, m: Meta, s: State, cmd: Command, now: int)
    requires s.meta == Some(m) && cmd.Start? && (cmd.pid in s.participants ==> cmd.pid in s.attempts)
    ensures Extends(s, StartStep(s, m, cmd, now).0)
    ensures !StartStep(s, m, cmd, now).1.Scored?
  {
  }

  /** Without a reset a step only adds. */
  lemma StepExtends(q: Quiz, s: State, cmd: Command, now: int)
    requires LiveQuiz(q) && s.meta.Some? && Inv(q, q.contentVersion, s) && Issued(q, cmd) && Ticking(now)
    requires !cmd.Reset?
    ensures Extends(s, Step(s, q.contentVersion, cmd, now).0)
    ensures Step(s, q.contentVersion, cmd, now).1.Scored? ==> cmd.Answer?
  {
    hide Inv, LiveQuiz, Preflight, RoomSound, Step, Issued, Extends, JoinStep, StartStep, AnswerStep;
    var m := s.meta.value;
    ServedDirectly(q, m, s, cmd, now);
    ExtendsItself(s);
    if PidOf(cmd).Some? {
      MembersHavePlans(q, s, PidOf(cmd).value);
    }
    match cmd {
      case Join(_, _, _) => JoinStepExtends(q, m, s, cmd);
      case Start(_, _, _, _) => StartStepExtends(q, m, s, cmd, now);
      case Answer(_, _, _, _, _, _, _, _, _, _) => AnswerStepExtends(q, m, s, cmd, now);
      case Snapshot(_) => SnapshotOutcome(q, m, s, cmd);
      case _ =>
    }
  }

  // ---------- Epochs never return ----------

  predicate Opens(cmd: Command) { cmd.Reset? || cmd.Seed? }

  /** Every seed and reset carries a newly drawn id. */
  ghost predicate FreshEpochs(s: State, events: seq<Event>) {
    && (forall i, j :: 0 <= i < j < |events| && Opens(events[i].cmd) && Opens(events[j].cmd) ==>
          events[i].cmd.epoch != events[j].cmd.epoch)
    && (s.meta.Some? ==> forall i :: 0 <= i < |events| && Opens(events[i].cmd) ==>
          events[i].cmd.epoch != s.meta.value.epoch)
  }

  /** The step replaces the room, or creates it. */
  predicate Renews(s: State, cmd: Command) {
    cmd.Reset? || (cmd.Seed? && s.meta.None?)
  }

  lemma RenewedRoom(q: Quiz, s: State, cmd: Command, now: int)
    requires Legal(q, s) && Issued(q, cmd) && Renews(s, cmd)
    ensures Step(s, q.contentVersion, cmd, now).0
      == Opened(cmd.epoch, q.contentVersion, cmd.capacity, cmd.manifest)
  {
    hide Inv, Served;
  }

  lemma AbsentRoom(q: Quiz, s: State, cmd: Command, now: int)
    requires s.meta.None? && !Renews(s, cmd)
    ensures Step(s, q.contentVersion, cmd, now) == (s, Refused(QuizNotFound))
  {
    hide Served;
  }

  /** The epoch after k events is the first one or comes from an earlier seed or reset. */
  lemma {:induction false} EpochOrigin(q: Quiz, s: State, events: seq<Event>, k: nat)
    requires LiveQuiz(q) && Legal(q, s) && Proper(q, events) && k <= |events|
    ensures
      var t := Before(q, s, events, k);
      t.meta.Some? ==>
        || (s.meta.Some? && t.meta.value.epoch == s.meta.value.epoch)
        || exists l :: 0 <= l < k && Opens(events[l].cmd) && events[l].cmd.epoch == t.meta.value.epoch
  {
    hide LiveQuiz, Legal, Issued, Step, Before, Renews;
    if k == 0 {
      StartsAt(q, s, events);
    } else {
      EpochOrigin(q, s, events, k - 1);
      RunKeepsLegal(q, s, events, k - 1);
      BeforeNext(q, s, events, k - 1);
      assert events[k - 1] in events;
      EpochStep(q, Before(q, s, events, k - 1), events[k - 1].cmd, events[k - 1].now);
    }
  }

  lemma EpochStep(q: Quiz, s: State, cmd: Command, now: int)
    requires LiveQuiz(q) && Legal(q, s) && Issued(q, cmd) && Ticking(now)
    ensures
      var t := Step(s, q.contentVersion, cmd, now).0;
      if Renews(s, cmd) then Opens(cmd) && t.meta.Some? && t.meta.value.epoch == cmd.epoch
      else s.meta.Some? ==> Extends(s, t)
    ensures !Renews(s, cmd) && s.meta.None? ==> Step(s, q.contentVersion, cmd, now).0 == s
  {
    hide Inv, LiveQuiz, Issued, Step, Includes;
    if Renews(s, cmd) {
      RenewedRoom(q, s, cmd, now);
    } else if s.meta.None? {
      AbsentRoom(q, s, cmd, now);
    } else {
      StepExtends(q, s, cmd, now);
    }
  }

  /** A room that has an epoch it had before did not change it in its last step. */
  lemma LastStepStays(q: Quiz, s: State, events: seq<Event>, i: nat, k: nat)
    requires LiveQuiz(q) && Legal(q, s) && Proper(q, events) && FreshEpochs(s, events)
    requires i < k <= |events|
    requires Before(q, s, events, i).meta.Some? && Before(q, s, events, k).meta.Some?
    requires Before(q, s, events, i).meta.value.epoch == Before(q, s, events, k).meta.value.epoch
    ensures Before(q, s, events, k - 1).meta.Some?
    ensures Extends(Before(q, s, events, k - 1), Before(q, s, events, k))
  {
    hide LiveQuiz, Legal, Issued, Step, Before, Renews, Includes;
    var t, e := Before(q, s, events, k - 1), events[k - 1];
    assert e in events;
    RunKeepsLegal(q, s, events, k - 1);
    BeforeNext(q, s, events, k - 1);
    EpochOrigin(q, s, events, i);
    EpochStep(q, t, e.cmd, e.now);
    assert !Renews(t, e.cmd);
    assert t.meta.Some?;
  }

  /** An epoch once left does not return. */
  lemma {:induction false} EpochStays(q: Quiz, s: State, events: seq<Event>, i: nat, j: nat, k: nat)
    requires LiveQuiz(q) && Legal(q, s) && Proper(q, events) && FreshEpochs(s, events)
    requires i <= j <= k <= |events|
    requires Before(q, s, events, i).meta.Some? && Before(q, s, events, k).meta.Some?
    requires Before(q, s, events, i).meta.value.epoch == Before(q, s, events, k).meta.value.epoch
    ensures Before(q, s, events, j).meta.Some?
    ensures Before(q, s, events, j).meta.value.epoch == Before(q, s, events, i).meta.value.epoch
    decreases k
  {
    hide LiveQuiz, Legal, Proper, FreshEpochs, Before, Includes;
    if j < k {
      LastStepStays(q, s, events, i, k);
      EpochStays(q, s, events, i, j, k - 1);
    }
  }

  /** States of one epoch, however far apart in the run, are states of one growing room. */
  lemma {:induction false} SameEpochExtends(q: Quiz, s: State, events: seq<Event>, i: nat, j: nat)
    requires LiveQuiz(q) && Legal(q, s) && Proper(q, events) && FreshEpochs(s, events)
    requires i <= j <= |events|
    requires Before(q, s, events, i).meta.Some? && Before(q, s, events, j).meta.Some?
    requires Before(q, s, events, i).meta.value.epoch == Before(q, s, events, j).meta.value.epoch
    ensures Extends(Before(q, s, events, i), Before(q, s, events, j))
    decreases j - i
  {
    hide LiveQuiz, Legal, Proper, FreshEpochs, Before, Includes;
    ExtendsItself(Before(q, s, events, j));
    if i < j {
      LastStepStays(q, s, events, i, j);
      SameEpochExtends(q, s, events, i, j - 1);
      ExtendsTransitive(Before(q, s, events, i), Before(q, s, events, j - 1), Before(q, s, events, j));
    }
  }

  // ---------- What follows for learners ----------

  /** (epoch, version) names one public state in a whole run: whatever happens in
      between, members, scores and hence the leaderboard are the same. */
  lemma VersionNamesPublicState(q: Quiz, s: State, events: seq<Event>, i: nat, j: nat)
    requires LiveQuiz(q) && Legal(q, s) && Proper(q, events) && FreshEpochs(s, events)
    requires i <= |events| && j <= |events|
    requires Before(q, s, events, i).meta.Some? && Before(q, s, events, j).meta.Some?
    requires Before(q, s, events, i).meta.value.epoch == Before(q, s, events, j).meta.value.epoch
    requires Before(q, s, events, i).meta.value.version == Before(q, s, events, j).meta.value.version
    ensures Before(q, s, events, j) == Before(q, s, events, i).(timers := Before(q, s, events, j).timers)
  {
    hide LiveQuiz, Legal, Proper, FreshEpochs, Before, Includes;
    if i <= j {
      SameEpochExtends(q, s, events, i, j);
    } else {
      SameEpochExtends(q, s, events, j, i);
    }
  }

  /** The first committed plan stays: no later join replaces it within the epoch. */
  lemma PlanIsKept(q: Quiz, s: State, events: seq<Event>, i: nat, j: nat, pid: Id)
    requires LiveQuiz(q) && Legal(q, s) && Proper(q, events) && FreshEpochs(s, events)
    requires i <= j <= |events|
    requires Before(q, s, events, i).meta.Some? && Before(q, s, events, j).meta.Some?
    requires Before(q, s, events, i).meta.value.epoch == Before(q, s, events, j).meta.value.epoch
    requires pid in Before(q, s, events, i).attempts
    ensures pid in Before(q, s, events, j).attempts
    ensures Before(q, s, events, j).attempts[pid] == Before(q, s, events, i).attempts[pid]
    ensures forall f :: f in Before(q, s, events, i).timers ==>
      f in Before(q, s, events, j).timers && Before(q, s, events, j).timers[f] == Before(q, s, events, i).timers[f]
  {
    hide LiveQuiz, Legal, Proper, FreshEpochs, Before;
    SameEpochExtends(q, s, events, i, j);
  }

  lemma OnlyOpenRoomsScore(q: Quiz, s: State, cmd: Command, now: int)
    requires LiveQuiz(q) && Legal(q, s) && Issued(q, cmd) && Ticking(now)
    requires Step(s, q.contentVersion, cmd, now).1.Scored?
    ensures s.meta.Some? && cmd.Answer?
  {
    hide Inv, LiveQuiz, Served, Issued;
    if s.meta.Some? && !cmd.Reset? {
      StepExtends(q, s, cmd, now);
    }
  }

  lemma AnswerReply(q: Quiz, m: Meta, s: State, cmd: Command, now: int)
    requires LiveQuiz(q) && s.meta == Some(m) && Inv(q, q.contentVersion, s) && cmd.Answer?
    ensures cmd.pid in s.participants ==> cmd.pid in s.attempts && cmd.pid in s.scores
    ensures Step(s, q.contentVersion, cmd, now) == AnswerStep(s, m, cmd, now)
  {
    hide Inv, LiveQuiz, Preflight, RoomSound, Step, AnswerStep;
    ServedDirectly(q, m, s, cmd, now);
    MembersHavePlans(q, s, cmd.pid);
  }

  lemma NewScoreCommits(s: State, m: Meta, cmd: Command, now: int)
    requires cmd.Answer? && (cmd.pid in s.participants ==> cmd.pid in s.attempts && cmd.pid in s.scores)
    ensures AnswerStep(s, m, cmd, now).1.Scored? && AnswerStep(s, m, cmd, now).1.isNew ==> Commits(s, m, cmd)
  {
    hide Recorded, ReceiptFor, Resolved;
  }

  /** What an accepted answer leaves behind. */
  lemma AcceptanceIsStored(q: Quiz, s: State, cmd: Command, now: int, r: Receipt)
    requires LiveQuiz(q) && Legal(q, s) && Issued(q, cmd) && Ticking(now)
    requires Step(s, q.contentVersion, cmd, now).1 == Scored(true, r)
    ensures s.meta.Some? && Inv(q, q.contentVersion, s) && Commits(s, s.meta.value, cmd)
    ensures cmd.pid in s.attempts && cmd.pid in s.scores && cmd.qid in s.attempts[cmd.pid].optionOrders
    ensures r == ReceiptOf(s, s.meta.value, cmd, now)
    ensures Step(s, q.contentVersion, cmd, now).0 == Recorded(s, s.meta.value, cmd.pid, r)
  {
    hide Inv, LiveQuiz, Step, Recorded, Issued, ReceiptOf, AnswerStep;
    OnlyOpenRoomsScore(q, s, cmd, now);
    AnswerReply(q, s.meta.value, s, cmd, now);
    NewScoreCommits(s, s.meta.value, cmd, now);
    AnswerCommits(q, s.meta.value, s, cmd, now);
  }

  lemma RecordedEntries(s: State, m: Meta, pid: Id, r: Receipt)
    requires pid in s.participants && pid in s.attempts && s.meta == Some(m)
    ensures
      var t := Recorded(s, m, pid, r);
      && (pid, r.submissionId) in t.requests && t.requests[(pid, r.submissionId)] == r
      && (pid, r.questionId) in t.answers && t.answers[(pid, r.questionId)] == r
      && pid in t.participants && t.meta.Some? && t.meta.value.epoch == m.epoch
  {
  }

  /** Sending a stored request again: the same payload brings back the same receipt,
      another question or option conflicts, and neither changes the room. */
  lemma ReplayReply(q: Quiz, s: State, cmd: Command, now: int)
    requires LiveQuiz(q) && s.meta.Some? && Inv(q, q.contentVersion, s) && Issued(q, cmd) && cmd.Answer?
    requires cmd.epoch == s.meta.value.epoch && (cmd.pid, cmd.rid) in s.requests
    ensures
      var r := s.requests[(cmd.pid, cmd.rid)];
      Step(s, q.contentVersion, cmd, now) ==
        (s, if cmd.qid == r.questionId && cmd.option == r.selectedOptionId then Scored(false, r)
            else Refused(IdempotencyConflict))
  {
    hide Inv, LiveQuiz, Step, Recorded, Issued, ReceiptFor, Resolved;
    var m := s.meta.value;
    AnswerReply(q, m, s, cmd, now);
    RequesterIsMember(q, m, s, (cmd.pid, cmd.rid));
  }

  lemma RequesterIsMember(q: Quiz, m: Meta, s: State, f: Field)
    requires s.meta == Some(m) && Inv(q, q.contentVersion, s) && f in s.requests
    ensures f.0 in s.participants
  {
    hide PlansFit, AllProgress, Receipts, OneVersionEach, MetaFits;
    var r := s.requests[f];
    assert (f.0, r.questionId) in s.answers;
    AnswererIsMember(q, m, s, (f.0, r.questionId));
  }

  /** An accepted receipt stays under both its keys for the rest of the epoch. */
  lemma AcceptanceLasts(q: Quiz, s: State, events: seq<Event>, i: nat, j: nat, r: Receipt)
    requires LiveQuiz(q) && Legal(q, s) && Proper(q, events) && FreshEpochs(s, events)
    requires i < j <= |events| && ReplyTo(q, s, events, i) == Scored(true, r)
    requires Before(q, s, events, j).meta.Some? && Before(q, s, events, j).meta.value.epoch == r.epoch
    ensures events[i].cmd.Answer?
    ensures
      var t, pid := Before(q, s, events, j), events[i].cmd.pid;
      && Inv(q, q.contentVersion, t)
      && (pid, r.submissionId) in t.requests && t.requests[(pid, r.submissionId)] == r
      && (pid, r.questionId) in t.answers && t.answers[(pid, r.questionId)] == r
  {
    hide LiveQuiz, Inv, Issued, Step, Before, Recorded, FreshEpochs;
    var b := Before(q, s, events, i);
    assert events[i] in events;
    RunKeepsLegal(q, s, events, i);
    RunKeepsLegal(q, s, events, j);
    AcceptanceIsStored(q, b, events[i].cmd, events[i].now, r);
    BeforeNext(q, s, events, i);
    RecordedEntries(b, b.meta.value, events[i].cmd.pid, r);
    SameEpochExtends(q, s, events, i + 1, j);
  }

  /** Replay stability over runs: after an accepted answer, and whatever joins, starts,
      answers, seeds or time follow in that epoch, the same submission gets the
      identical receipt back and writes nothing; with another payload it conflicts. */
  lemma AcceptedAnswerReplays(q: Quiz, s: State, events: seq<Event>, i: nat, j: nat, r: Receipt, again: Command,
      now: int)
    requires LiveQuiz(q) && Legal(q, s) && Proper(q, events) && FreshEpochs(s, events)
    requires i < j <= |events| && ReplyTo(q, s, events, i) == Scored(true, r)
    requires Before(q, s, events, j).meta.Some? && Before(q, s, events, j).meta.value.epoch == r.epoch
    requires events[i].cmd.Answer? && again.Answer? && Issued(q, again)
    requires again.pid == events[i].cmd.pid && again.rid == r.submissionId && again.epoch == r.epoch
    ensures Step(Before(q, s, events, j), q.contentVersion, again, now) ==
      (Before(q, s, events, j),
       if again.qid == r.questionId && again.option == r.selectedOptionId then Scored(false, r)
       else Refused(IdempotencyConflict))
  {
    hide LiveQuiz, Legal, Inv, Issued, Step, Before, FreshEpochs, Proper;
    AcceptanceLasts(q, s, events, i, j, r);
    ReplayReply(q, Before(q, s, events, j), again, now);
  }

  /** An answer for another epoch never writes. */
  lemma StaleAnswerWritesNothing(q: Quiz, s: State, cmd: Command, now: int)
    requires LiveQuiz(q) && Legal(q, s) && Issued(q, cmd) && cmd.Answer?
    requires s.meta.Some? ==> cmd.epoch != s.meta.value.epoch
    ensures Step(s, q.contentVersion, cmd, now).0 == s
    ensures Step(s, q.contentVersion, cmd, now).1 == Refused(if s.meta.Some? then EpochMismatch else QuizNotFound)
  {
    hide Inv, LiveQuiz, Step, Recorded, Issued, ReceiptFor;
    if s.meta.Some? {
      AnswerReply(q, s.meta.value, s, cmd, now);
    } else {
      AbsentRoom(q, s, cmd, now);
    }
  }

  /** After a reset the old epoch is gone for good, so an old intent never crosses it. */
  lemma OldIntentNeverLands(q: Quiz, s: State, events: seq<Event>, i: nat, j: nat)
    requires LiveQuiz(q) && Legal(q, s) && Proper(q, events) && FreshEpochs(s, events)
    requires i < j < |events| && events[i].cmd.Reset? && events[j].cmd.Answer?
    requires Before(q, s, events, i).meta.Some? && events[j].cmd.epoch == Before(q, s, events, i).meta.value.epoch
    ensures Before(q, s, events, j + 1) == Before(q, s, events, j)
    ensures !ReplyTo(q, s, events, j).Scored?
  {
    hide LiveQuiz, Legal, Issued, Step, Before;
    var cmd := events[j].cmd;
    assert events[j] in events && events[i] in events;
    RunKeepsLegal(q, s, events, i);
    RunKeepsLegal(q, s, events, i + 1);
    RunKeepsLegal(q, s, events, j);
    BeforeNext(q, s, events, i);
    RenewedRoom(q, Before(q, s, events, i), events[i].cmd, events[i].now);
    BeforeNext(q, s, events, j);
    EpochOrigin(q, s, events, i);
    EpochLater(q, s, events, i, j);
    StaleAnswerWritesNothing(q, Before(q, s, events, j), cmd, events[j].now);
  }

  /** From a reset on, the epoch is that of this reset or of a later opening. */
  lemma {:induction false} EpochLater(q: Quiz, s: State, events: seq<Event>, i: nat, j: nat)
    requires LiveQuiz(q) && Legal(q, s) && Proper(q, events)
    requires i < j <= |events| && events[i].cmd.Reset?
    ensures
      var t := Before(q, s, events, j);
      t.meta.Some? && exists l :: i <= l < j && Opens(events[l].cmd) && events[l].cmd.epoch == t.meta.value.epoch
    decreases j
  {
    hide LiveQuiz, Legal, Issued, Step, Before, Renews;
    RunKeepsLegal(q, s, events, j - 1);
    BeforeNext(q, s, events, j - 1);
    assert events[j - 1] in events;
    EpochStep(q, Before(q, s, events, j - 1), events[j - 1].cmd, events[j - 1].now);
    if i < j - 1 {
      EpochLater(q, s, events, i, j - 1);
    } else {
      ResetRenews(Before(q, s, events, i), events[i].cmd);
    }
  }

  lemma ResetRenews(s: State, cmd: Command)
    requires cmd.Reset?
    ensures Renews(s, cmd)
  {
  }

  /** Each participant's question is committed at most once per epoch in a whole run. */
  lemma CommittedOnce(q: Quiz, s: State, events: seq<Event>, i: nat, j: nat, r1: Receipt, r2: Receipt)
    requires LiveQuiz(q) && Legal(q, s) && Proper(q, events) && FreshEpochs(s, events)
    requires i < j < |events| && events[i].cmd.Answer? && events[j].cmd.Answer?
    requires ReplyTo(q, s, events, i) == Scored(true, r1) && ReplyTo(q, s, events, j) == Scored(true, r2)
    requires events[i].cmd.pid == events[j].cmd.pid && r1.epoch == r2.epoch
    ensures r1.questionId != r2.questionId && r1.submissionId != r2.submissionId
    ensures r1.acceptedVersion < r2.acceptedVersion
  {
    hide LiveQuiz, Inv, Issued, Step, Before, Recorded, FreshEpochs;
    var b, c := Before(q, s, events, i), Before(q, s, events, j);
    assert events[i] in events && events[j] in events;
    RunKeepsLegal(q, s, events, i);
    RunKeepsLegal(q, s, events, j);
    AcceptanceIsStored(q, b, events[i].cmd, events[i].now, r1);
    AcceptanceIsStored(q, c, events[j].cmd, events[j].now, r2);
    BeforeNext(q, s, events, i);
    RecordedEntries(b, b.meta.value, events[i].cmd.pid, r1);
    RecordedVersion(b, b.meta.value, events[i].cmd.pid, r1);
    SameEpochExtends(q, s, events, i + 1, j);
  }

  lemma RecordedVersion(s: State, m: Meta, pid: Id, r: Receipt)
    requires pid in s.participants && pid in s.attempts && s.meta == Some(m)
    ensures Recorded(s, m, pid, r).meta.value.version == m.version + 1
  {
  }
}
