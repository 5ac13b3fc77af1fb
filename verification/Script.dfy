/** transition.lua carried out on the stored maps. Each method is one part of the
    script, with its loops and writes, and is proved to do what Room.Step says. */
module Script {
  import opened Domain
  import opened Attempt
  import opened Standings
  import opened Room

  /** The loop over a plan that counts answered questions and finds the first open one;
      `sentinel` stands for "none found yet". */
  method Walk(order: seq<Id>, answers: map<Field, Receipt>, pid: Id, sentinel: nat) returns (answered: nat, cursor: nat)
    requires |order| <= sentinel
    ensures answered == AnsweredIn(order, answers.Keys, pid)
    ensures
      var k := FirstOpen(order, answers.Keys, pid);
      cursor == if k < |order| then k else sentinel
  {
    answered, cursor := 0, sentinel;
    for i := 0 to |order|
      invariant answered == AnsweredIn(order[..i], answers.Keys, pid)
      invariant
        var k := FirstOpen(order[..i], answers.Keys, pid);
        cursor == if k < i then k else sentinel
    {
      assert order[..i + 1][..i] == order[..i];
      if (pid, order[i]) in answers {
        answered := answered + 1;
      } else if cursor == sentinel {
        cursor := i;
      }
    }
    assert order[..|order|] == order;
  }

  /** The same walk when an answer to `qid` is about to be written. */
  method WalkPast(order: seq<Id>, answers: map<Field, Receipt>, pid: Id, qid: Id) returns (position: nat, cursor: nat)
    ensures position == Position(order, qid)
    ensures cursor == FirstOpen(order, answers.Keys + {(pid, qid)}, pid)
  {
    position, cursor := 0, |order|;
    ghost var answered := answers.Keys + {(pid, qid)};
    for i := 0 to |order|
      invariant position == Position(order[..i], qid)
      invariant
        var k := FirstOpen(order[..i], answered, pid);
        cursor == if k < i then k else |order|
    {
      assert order[..i + 1][..i] == order[..i];
      if order[i] == qid {
        position := i + 1;
      } else if cursor == |order| && (pid, order[i]) !in answers {
        cursor := i;
      }
    }
    assert order[..|order|] == order;
  }

  method FindLast(options: seq<Choice>, id: Id) returns (found: Option<Choice>)
    ensures found == PickLast(options, id)
  {
    found := None;
    for i := 0 to |options|
      invariant found == PickLast(options[..i], id)
    {
      assert options[..i + 1][..i] == options[..i];
      if options[i].id == id {
        found := Some(options[i]);
      }
    }
    assert options[..|options|] == options;
  }

  method Rearrange(options: seq<Choice>, order: seq<Id>) returns (r: Option<seq<Choice>>)
    ensures r == Resolved(options, order)
  {
    var sofar: seq<Choice> := [];
    for i := 0 to |order|
      invariant Resolved(options, order[..i]) == Some(sofar)
    {
      assert order[..i + 1][..i] == order[..i];
      var found := FindLast(options, order[i]);
      if found.None? {
        Unresolved(options, order, i + 1);
        return None;
      }
      sofar := sofar + [found.value];
    }
    assert order[..|order|] == order;
    r := Some(sofar);
  }

  lemma {:induction false} Unresolved(options: seq<Choice>, order: seq<Id>, i: nat)
    requires i <= |order| && Resolved(options, order[..i]).None?
    ensures Resolved(options, order).None?
    decreases |order|
  {
    if i < |order| {
      var last := |order| - 1;
      assert order[..last][..i] == order[..i];
      Unresolved(options, order[..last], i);
    } else {
      assert order[..i] == order;
    }
  }

  method CollectReceipts(order: seq<Id>, answers: map<Field, Receipt>, pid: Id) returns (receipts: seq<Receipt>)
    ensures receipts == ReceiptsIn(order, answers, pid)
  {
    receipts := [];
    for i := 0 to |order|
      invariant receipts == ReceiptsIn(order[..i], answers, pid)
    {
      assert order[..i + 1][..i] == order[..i];
      if (pid, order[i]) in answers {
        receipts := receipts + [answers[(pid, order[i])]];
      }
    }
    assert order[..|order|] == order;
  }

  lemma FittingSize(manifest: Manifest, version: Id, plan: Plan)
    requires PlanFits(manifest, version, plan)
    ensures |plan.questionOrder| == |manifest| <= 8
  {
    FittingLength(manifest, version, plan);
  }

  /** The upgrade loop so far: `encoded` holds the converted plans of the members not in `todo`. */
  ghost predicate Converted(s: State, m: Meta, content: Id, encoded: map<Id, Plan>, todo: set<Id>) {
    && todo <= s.attempts.Keys && encoded.Keys == s.attempts.Keys - todo
    && forall pid :: pid in encoded ==>
      UpgradePlanSound(s, m, pid) && encoded[pid] == s.attempts[pid].(contentVersion := content)
  }

  lemma AllConverted(s: State, m: Meta, content: Id, encoded: map<Id, Plan>)
    requires Converted(s, m, content, encoded, {})
    ensures forall pid :: pid in s.attempts ==> UpgradePlanSound(s, m, pid)
    ensures encoded == Upgraded(s, m, content).attempts
  {
    hide UpgradePlanSound;
    assert forall pid :: pid in s.attempts ==> pid in encoded.Keys;
  }

  class Keys {
    var meta: Option<Meta>
    var participants: map<Id, Member>
    var scores: map<Id, int>
    var answers: map<Field, Receipt>
    var requests: map<Field, Receipt>
    var attempts: map<Id, Plan>
    var timers: map<Field, int>

    ghost function Now(): State
      reads this
    {
      State(meta, participants, scores, answers, requests, attempts, timers)
    }

    constructor ()
      ensures Now() == State(None, map[], map[], map[], map[], map[], map[])
    {
      meta := None;
      participants, scores, answers, requests := map[], map[], map[], map[];
      attempts, timers := map[], map[];
    }

    /** DEL of all keys, then the fresh meta hash. */
    method Open(epoch: Id, content: Id, capacity: int, manifest: Manifest) returns (reply: Reply)
      modifies this
      ensures (Now(), reply) == OpenStep(old(Now()), content, epoch, capacity, manifest)
    {
      if capacity < 0 || capacity > 200 || capacity < 1 {
        return Fault;
      }
      participants, scores, answers, requests, attempts, timers := map[], map[], map[], map[], map[], map[];
      meta := Some(Meta(epoch, 0, content, capacity, manifest, None));
      reply := Sealed(epoch, 0);
    }

    method CheckMember(m: Meta, content: Id, pid: Id) returns (ok: bool)
      ensures ok <==> MemberSound(Now(), m, content, pid)
    {
      if pid !in participants {
        return pid !in scores && pid !in attempts;
      }
      var member, total := participants[pid], |m.manifest|;
      if !Whole(member.count, total) || !Whole(member.cursor, total) || pid !in attempts {
        return false;
      }
      var fits := ValidatePlan(m.manifest, content, attempts[pid]);
      if !fits {
        return false;
      }
      FittingSize(m.manifest, content, attempts[pid]);
      var answered, cursor := Walk(attempts[pid].questionOrder, answers, pid, total);
      if answered != member.count || cursor != member.cursor {
        return false;
      }
      if pid !in scores || !Whole(scores[pid], total * 100) {
        return false;
      }
      ok := !(scores[pid] % 50 != 0 || scores[pid] > member.count * 100);
    }

    method Join(m: Meta, content: Id, pid: Id, name: string, plan: Option<Plan>) returns (reply: Reply)
      requires meta == Some(m)
      modifies this
      ensures (Now(), reply) == JoinStep(old(Now()), m, content, Command.Join(pid, name, plan))
    {
      if pid in participants {
        return Entered(false, m.epoch, m.version);
      }
      if |participants| >= m.capacity {
        return Refused(QuizFull);
      }
      if plan.None? {
        return Refused(PlanRequired);
      }
      var fits := ValidatePlan(m.manifest, content, plan.value);
      if !fits {
        return Fault;
      }
      var nextVersion := m.version + 1;
      participants := participants[pid := Member(name, 0, 0)];
      attempts := attempts[pid := plan.value];
      scores := scores[pid := 0];
      meta := Some(m.(version := nextVersion));
      reply := Entered(true, m.epoch, nextVersion);
    }

    method Start(m: Meta, cmd: Command, now: int) returns (reply: Reply)
      requires meta == Some(m) && cmd.Start? && (cmd.pid in participants ==> cmd.pid in attempts)
      modifies this
      ensures (Now(), reply) == StartStep(old(Now()), m, cmd, now)
    {
      if cmd.epoch != m.epoch {
        return Refused(EpochMismatch);
      }
      if cmd.pid !in participants {
        return Refused(NotJoined);
      }
      if cmd.qid !in attempts[cmd.pid].optionOrders {
        return Refused(QuestionNotFound);
      }
      var field := (cmd.pid, cmd.qid);
      var deadline: int;
      if field in timers {
        deadline := timers[field];
        if !Whole(deadline, MAX_SAFE) || deadline == 0 {
          return Fault;
        }
      } else {
        if field in answers {
          return Refused(QuestionAlreadyAnswered);
        }
        if !Whole(cmd.durationMs, 120000) || cmd.durationMs == 0 {
          return Fault;
        }
        deadline := now + cmd.durationMs;
        timers := timers[field := deadline];
      }
      reply := Clock(m.epoch, cmd.qid, deadline, now);
    }

    /** The writes of an accepted answer. */
    method Record(m: Meta, pid: Id, r: Receipt, cursor: nat)
      requires meta == Some(m) && pid in participants && pid in attempts
      requires cursor == FirstOpen(attempts[pid].questionOrder, answers.Keys + {(pid, r.questionId)}, pid)
      modifies this
      ensures Now() == Recorded(old(Now()), m, pid, r)
    {
      var member := participants[pid];
      answers := answers[(pid, r.questionId) := r];
      requests := requests[(pid, r.submissionId) := r];
      scores := scores[pid := r.totalScoreAtAcceptance];
      participants := participants[pid := member.(count := member.count + 1, cursor := cursor)];
      meta := Some(m.(version := m.version + 1));
    }

    method Answer(m: Meta, cmd: Command, now: int) returns (reply: Reply)
      requires meta == Some(m) && cmd.Answer?
      requires cmd.pid in participants ==> cmd.pid in attempts && cmd.pid in scores
      modifies this
      ensures (Now(), reply) == AnswerStep(old(Now()), m, cmd, now)
    {
      hide Recorded, FirstOpen, Position, Resolved;
      var pid, qid := cmd.pid, cmd.qid;
      if cmd.epoch != m.epoch {
        return Refused(EpochMismatch);
      }
      if pid !in participants {
        return Refused(NotJoined);
      }
      if (pid, cmd.rid) in requests {
        var receipt := requests[(pid, cmd.rid)];
        if receipt.questionId != qid || receipt.selectedOptionId != cmd.option {
          return Refused(IdempotencyConflict);
        }
        return Scored(false, receipt);
      }
      if (pid, qid) in answers {
        return AlreadyAnswered(answers[(pid, qid)]);
      }
      if participants[pid].count >= |m.manifest| {
        return Fault;
      }
      if !Whole(cmd.points, 100) || (cmd.points != 0 && cmd.points != 100) {
        return Fault;
      }
      if (pid, qid) in timers && (!Whole(timers[(pid, qid)], MAX_SAFE) || timers[(pid, qid)] == 0) {
        return Fault;
      }
      if qid !in attempts[pid].optionOrders {
        return Fault;
      }
      var options := Rearrange(cmd.question.options, attempts[pid].optionOrders[qid]);
      if options.None? {
        return Fault;
      }
      var position, cursor := WalkPast(attempts[pid].questionOrder, answers, pid, qid);
      PositionSpec(attempts[pid].questionOrder, qid);
      if position == 0 {
        return Fault;
      }
      var timedOut := (pid, qid) !in timers || now >= timers[(pid, qid)];
      var points := if cmd.points == 100 && timedOut then 50 else cmd.points;
      var deadline := if (pid, qid) in timers then timers[(pid, qid)] else 0;
      var receipt := Receipt(
        cmd.rid, cmd.quizId, m.epoch, qid, cmd.option, cmd.points == 100, timedOut, deadline, now, points,
        scores[pid] + points, m.version + 1, cmd.correctId, cmd.explanation,
        cmd.question.(options := options.value), position, None);
      Record(m, pid, receipt, cursor);
      reply := Scored(true, receipt);
    }

    method Snapshot(m: Meta, viewer: Option<Id>) returns (reply: Reply)
      requires viewer.Some? && viewer.value in participants ==> viewer.value in attempts
      ensures (Now(), reply) == SnapshotStep(Now(), m, Command.Snapshot(viewer))
    {
      if viewer.Some? && viewer.value !in participants {
        return Refused(NotJoined);
      }
      var rows := RevRange(scores);
      if viewer.None? {
        return Dump(m.epoch, m.version, rows, participants, [], None);
      }
      var plan := attempts[viewer.value];
      var receipts := CollectReceipts(plan.questionOrder, answers, viewer.value);
      if |receipts| != participants[viewer.value].count {
        return Fault;
      }
      reply := Dump(m.epoch, m.version, rows, participants, receipts, Some(plan));
    }

    method CheckUpgradePlan(m: Meta, pid: Id) returns (ok: bool)
      requires pid in attempts
      ensures ok <==> UpgradePlanSound(Now(), m, pid)
    {
      var fits := ValidatePlan(m.manifest, m.content, attempts[pid]);
      if !fits || pid !in participants {
        return false;
      }
      FittingSize(m.manifest, m.content, attempts[pid]);
      var member := participants[pid];
      if member.name == "" || !Whole(member.count, 8) || !Whole(member.cursor, 8) {
        return false;
      }
      if pid !in scores || !Whole(scores[pid], 800) || scores[pid] % 100 != 0 || scores[pid] > member.count * 100 {
        return false;
      }
      var actualCount, actualCursor := Walk(attempts[pid].questionOrder, answers, pid, 8);
      ok := member.count == actualCount && member.cursor == actualCursor;
    }

    /** Checks and re-encodes every saved plan. */
    method EncodePlans(m: Meta, content: Id) returns (ok: bool, encoded: map<Id, Plan>)
      ensures ok <==> forall pid :: pid in attempts ==> UpgradePlanSound(Now(), m, pid)
      ensures ok ==> encoded == Upgraded(Now(), m, content).attempts
    {
      hide UpgradePlanSound;
      ghost var s := Now();
      encoded := map[];
      var todo := attempts.Keys;
      while todo != {}
        invariant Converted(s, m, content, encoded, todo)
        decreases |todo|
      {
        var pid :| pid in todo;
        ok := CheckUpgradePlan(m, pid);
        if !ok {
          return;
        }
        encoded := encoded[pid := attempts[pid].(contentVersion := content)];
        todo := todo - {pid};
      }
      AllConverted(s, m, content, encoded);
      ok := true;
    }

    /** All checks come before the first write. */
    method Upgrade(m: Meta, content: Id, manifest: Manifest) returns (ok: bool)
      requires meta == Some(m)
      modifies this
      ensures ok <==> UpgradeSound(old(Now()), m, manifest)
      ensures Now() == if ok then Upgraded(old(Now()), m, content) else old(Now())
    {
      hide UpgradePlanSound;
      if !Whole(m.version, MAX_VERSION) || m.capacity < 1 || m.capacity > 200 || m.manifest != manifest {
        return false;
      }
      if |participants| > m.capacity || |participants| != |attempts| || |participants| != |scores| || timers != map[] {
        return false;
      }
      var encoded;
      ok, encoded := EncodePlans(m, content);
      if ok {
        attempts := encoded;
        meta := Some(m.(content := content, previousContent := Some(m.content)));
      }
    }

    /** The checks of every operation on an open room, then the operation. */
    method Serve(content: Id, cmd: Command, now: int) returns (reply: Reply)
      requires meta.Some? && !cmd.Reset?
      modifies this
      ensures (Now(), reply) == Served(old(Now()), old(meta.value), content, cmd, now)
    {
      var m := meta.value;
      if !Whole(m.version, MAX_VERSION) || !Whole(m.capacity, 200) {
        return Fault;
      }
      if |participants| != |scores| || |participants| != |attempts| || |participants| > m.capacity {
        return Fault;
      }
      if cmd.Seed? {
        return Sealed(m.epoch, m.version);
      }
      if cmd.Preview? {
        return Previewed;
      }
      if |m.manifest| < 4 || |m.manifest| > 8 {
        return Fault;
      }
      var pid := PidOf(cmd);
      if pid.Some? {
        var sound := CheckMember(m, content, pid.value);
        if !sound {
          return Fault;
        }
      }
      match cmd {
        case Join(p, name, plan) => reply := Join(m, content, p, name, plan);
        case Start(_, _, _, _) => reply := Start(m, cmd, now);
        case Answer(_, _, _, _, _, _, _, _, _, _) => reply := Answer(m, cmd, now);
        case Snapshot(viewer) => reply := Snapshot(m, viewer);
      }
    }

    /** One run of transition.lua. */
    method Run(content: Id, cmd: Command, now: int) returns (reply: Reply)
      modifies this
      ensures (Now(), reply) == Step(old(Now()), content, cmd, now)
    {
      if cmd.Reset? {
        reply := Open(cmd.epoch, content, cmd.capacity, cmd.manifest);
        return;
      }
      if meta.None? {
        if !cmd.Seed? {
          return Refused(QuizNotFound);
        }
        if participants != map[] || scores != map[] || answers != map[] || requests != map[]
          || attempts != map[] || timers != map[] {
          return Fault;
        }
        reply := Open(cmd.epoch, content, cmd.capacity, cmd.manifest);
        return;
      }
      var m := meta.value;
      if m.content != content {
        if !cmd.Seed? || cmd.legacy != m.content {
          return Fault;
        }
        var ok := Upgrade(m, content, cmd.manifest);
        if !ok {
          return Fault;
        }
      }
      reply := Serve(content, cmd, now);
    }
  }
}
