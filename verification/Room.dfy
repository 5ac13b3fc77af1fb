/** One room: the seven Redis keys of a quiz and the effect of one run of
    backend/internal/store/transition.lua. Redis runs a script alone, so one run is
    one atomic step. `Step` says what a run does; module Script carries it out. */
module Room {
  import opened Domain
  import opened Attempt
  import opened Standings

  datatype Meta = Meta(
    epoch: Id, version: int, content: Id, capacity: int, manifest: Manifest, previousContent: Option<Id>)

  datatype Member = Member(name: string, count: int, cursor: int)

  /** A hash field `pid:other`; see Domain.FieldInjective. */
  type Field = (Id, Id)

  datatype State = State(
    meta: Option<Meta>,
    participants: map<Id, Member>,
    scores: map<Id, int>,
    answers: map<Field, Receipt>,
    requests: map<Field, Receipt>,
    attempts: map<Id, Plan>,
    timers: map<Field, int>)

  /** ARGV, after the operation name and the caller's content version. The clock the
      script reads with TIME is a separate argument of the step. */
  datatype Command =
    | Reset(epoch: Id, capacity: int, manifest: Manifest)
    | Seed(epoch: Id, capacity: int, manifest: Manifest, legacy: Id)
    | Preview
    | Join(pid: Id, name: string, plan: Option<Plan>)
    | Start(pid: Id, epoch: Id, qid: Id, durationMs: int)
    | Answer(pid: Id, epoch: Id, rid: Id, qid: Id, option: Id, points: int,
             quizId: Id, correctId: Id, explanation: string, question: Question)
    | Snapshot(viewer: Option<Id>)

  datatype Code =
    | QuizNotFound | QuizFull | PlanRequired | EpochMismatch | NotJoined
    | QuestionNotFound | QuestionAlreadyAnswered | IdempotencyConflict

  /** Fault stands for every error_reply and Lua error: callers see them alike. */
  datatype Reply =
    | Fault
    | Refused(code: Code)
    | Sealed(epoch: Id, version: int)
    | Previewed
    | Entered(isNew: bool, epoch: Id, version: int)
    | Clock(epoch: Id, qid: Id, deadline: int, now: int)
    | Scored(isNew: bool, receipt: Receipt)
    | AlreadyAnswered(receipt: Receipt)
    | Dump(epoch: Id, version: int, rows: seq<Entry>, participants: map<Id, Member>,
           receipts: seq<Receipt>, plan: Option<Plan>)

  const MAX_VERSION := 1000000
  const MAX_SAFE := 9007199254740991

  // ---------- Progress along a plan ----------

  /** How many questions of `order` the participant has answered. */
  function AnsweredIn(order: seq<Id>, answered: set<Field>, pid: Id): (n: nat)
    ensures n <= |order|
  {
    if order == [] then 0
    else
      var last := |order| - 1;
      AnsweredIn(order[..last], answered, pid) + (if (pid, order[last]) in answered then 1 else 0)
  }

  /** Index of the first question of `order` not answered, or |order|. */
  function FirstOpen(order: seq<Id>, answered: set<Field>, pid: Id): (k: nat)
    ensures k <= |order|
  {
    if order == [] then 0
    else
      var last := |order| - 1;
      var k := FirstOpen(order[..last], answered, pid);
      if k < last then k
      else if (pid, order[last]) in answered then |order|
      else last
  }

  lemma {:induction false} FirstOpenSpec(order: seq<Id>, answered: set<Field>, pid: Id)
    ensures
      var k := FirstOpen(order, answered, pid);
      && (k < |order| ==> (pid, order[k]) !in answered)
      && forall i :: 0 <= i < k ==> (pid, order[i]) in answered
    decreases |order|
  {
    if order != [] {
      var last := |order| - 1;
      FirstOpenSpec(order[..last], answered, pid);
      assert forall i :: 0 <= i < last ==> order[..last][i] == order[i];
    }
  }

  /** One-based place of a question in a plan; 0 when absent. */
  function Position(order: seq<Id>, qid: Id): (p: nat)
    ensures p <= |order|
  {
    if order == [] then 0
    else
      var last := |order| - 1;
      if order[last] == qid then |order| else Position(order[..last], qid)
  }

  lemma {:induction false} PositionSpec(order: seq<Id>, qid: Id)
    ensures Position(order, qid) == 0 <==> qid !in order
    ensures Position(order, qid) > 0 ==> order[Position(order, qid) - 1] == qid
    decreases |order|
  {
    if order != [] {
      var last := |order| - 1;
      PositionSpec(order[..last], qid);
      assert order == order[..last] + [order[last]];
    }
  }

  /** The script keeps the last option with the id it looks for. */
  function PickLast(options: seq<Choice>, id: Id): Option<Choice> {
    if options == [] then None
    else
      var last := |options| - 1;
      if options[last].id == id then Some(options[last]) else PickLast(options[..last], id)
  }

  function Resolved(options: seq<Choice>, order: seq<Id>): Option<seq<Choice>> {
    if order == [] then Some([])
    else
      var last := |order| - 1;
      var front := Resolved(options, order[..last]);
      var c := PickLast(options, order[last]);
      if front.None? || c.None? then None else Some(front.value + [c.value])
  }

  function ReceiptsIn(order: seq<Id>, answers: map<Field, Receipt>, pid: Id): seq<Receipt> {
    if order == [] then []
    else
      var last := |order| - 1;
      ReceiptsIn(order[..last], answers, pid)
        + (if (pid, order[last]) in answers then [answers[(pid, order[last])]] else [])
  }

  // ---------- Preflight ----------

  predicate Whole(v: int, max: int) { 0 <= v <= max }

  function Opened(epoch: Id, content: Id, capacity: int, manifest: Manifest): State {
    State(Some(Meta(epoch, 0, content, capacity, manifest, None)), map[], map[], map[], map[], map[], map[])
  }

  predicate Hollow(s: State) {
    && s.participants == map[] && s.scores == map[] && s.answers == map[]
    && s.requests == map[] && s.attempts == map[] && s.timers == map[]
  }

  /** The checks every operation on an existing room makes first. */
  predicate RoomSound(s: State, m: Meta) {
    && Whole(m.version, MAX_VERSION) && Whole(m.capacity, 200)
    && |s.participants| == |s.scores| == |s.attempts|
    && |s.participants| <= m.capacity
  }

  /** The checks made for the participant a command names. */
  ghost predicate MemberSound(s: State, m: Meta, content: Id, pid: Id) {
    if pid !in s.participants then pid !in s.scores && pid !in s.attempts
    else
      var member, total := s.participants[pid], |m.manifest|;
      && Whole(member.count, total) && Whole(member.cursor, total)
      && pid in s.attempts && PlanFits(m.manifest, content, s.attempts[pid])
      && member.count == AnsweredIn(s.attempts[pid].questionOrder, s.answers.Keys, pid)
      && member.cursor == FirstOpen(s.attempts[pid].questionOrder, s.answers.Keys, pid)
      && pid in s.scores && Whole(s.scores[pid], total * 100)
      && s.scores[pid] % 50 == 0 && s.scores[pid] <= member.count * 100
  }

  /** The upgrade loop starts its cursor at 8 whatever the number of questions. */
  function UpgradeCursor(order: seq<Id>, answered: set<Field>, pid: Id): nat {
    var k := FirstOpen(order, answered, pid);
    if k < |order| then k else 8
  }

  ghost predicate UpgradePlanSound(s: State, m: Meta, pid: Id)
    requires pid in s.attempts
  {
    var order := s.attempts[pid].questionOrder;
    && PlanFits(m.manifest, m.content, s.attempts[pid])
    && pid in s.participants && s.participants[pid].name != ""
    && Whole(s.participants[pid].count, 8) && Whole(s.participants[pid].cursor, 8)
    && pid in s.scores && Whole(s.scores[pid], 800)
    && s.scores[pid] % 100 == 0 && s.scores[pid] <= s.participants[pid].count * 100
    && s.participants[pid].count == AnsweredIn(order, s.answers.Keys, pid)
    && s.participants[pid].cursor == UpgradeCursor(order, s.answers.Keys, pid)
  }

  /** What a change of scoring policy requires of the stored room. */
  ghost predicate UpgradeSound(s: State, m: Meta, manifest: Manifest) {
    && Whole(m.version, MAX_VERSION) && 1 <= m.capacity <= 200
    && m.manifest == manifest
    && |s.participants| <= m.capacity && |s.participants| == |s.attempts| == |s.scores|
    && s.timers == map[]
    && forall pid {:trigger UpgradePlanSound(s, m, pid)} :: pid in s.attempts ==> UpgradePlanSound(s, m, pid)
  }

  function Upgraded(s: State, m: Meta, content: Id): State {
    s.(attempts := map pid | pid in s.attempts :: s.attempts[pid].(contentVersion := content),
       meta := Some(m.(content := content, previousContent := Some(m.content))))
  }

  // ---------- The operations ----------

  function Admitted(s: State, m: Meta, pid: Id, name: string, plan: Plan): State {
    s.(participants := s.participants[pid := Member(name, 0, 0)],
       attempts := s.attempts[pid := plan],
       scores := s.scores[pid := 0],
       meta := Some(m.(version := m.version + 1)))
  }

  ghost function JoinStep(s: State, m: Meta, content: Id, cmd: Command): (State, Reply)
    requires cmd.Join?
  {
    var pid := cmd.pid;
    if pid in s.participants then (s, Entered(false, m.epoch, m.version))
    else if |s.participants| >= m.capacity then (s, Refused(QuizFull))
    else if cmd.plan.None? then (s, Refused(PlanRequired))
    else if !PlanFits(m.manifest, content, cmd.plan.value) then (s, Fault)
    else
      (Admitted(s, m, pid, cmd.name, cmd.plan.value), Entered(true, m.epoch, m.version + 1))
  }

  function StartStep(s: State, m: Meta, cmd: Command, now: int): (State, Reply)
    requires cmd.Start? && (cmd.pid in s.participants ==> cmd.pid in s.attempts)
  {
    var field := (cmd.pid, cmd.qid);
    if cmd.epoch != m.epoch then (s, Refused(EpochMismatch))
    else if cmd.pid !in s.participants then (s, Refused(NotJoined))
    else if cmd.qid !in s.attempts[cmd.pid].optionOrders then (s, Refused(QuestionNotFound))
    else if field in s.timers then
      if 0 < s.timers[field] <= MAX_SAFE then (s, Clock(m.epoch, cmd.qid, s.timers[field], now)) else (s, Fault)
    else if field in s.answers then (s, Refused(QuestionAlreadyAnswered))
    else if !(0 < cmd.durationMs <= 120000) then (s, Fault)
    else
      (s.(timers := s.timers[field := now + cmd.durationMs]), Clock(m.epoch, cmd.qid, now + cmd.durationMs, now))
  }

  /** Full credit needs a running clock; otherwise a correct answer earns half. */
  function Award(points: int, timedOut: bool): int {
    if points == 100 && timedOut then 50 else points
  }

  predicate TimerSound(timers: map<Field, int>, field: Field) {
    field in timers ==> 0 < timers[field] <= MAX_SAFE
  }

  function TimedOut(timers: map<Field, int>, field: Field, now: int): bool {
    field !in timers || now >= timers[field]
  }

  /** The receipt an accepted answer stores. */
  function ReceiptFor(s: State, m: Meta, cmd: Command, now: int, options: seq<Choice>): Receipt
    requires cmd.Answer? && cmd.pid in s.attempts && cmd.pid in s.scores
  {
    var field := (cmd.pid, cmd.qid);
    var timedOut := TimedOut(s.timers, field, now);
    var points := Award(cmd.points, timedOut);
    Receipt(cmd.rid, cmd.quizId, m.epoch, cmd.qid, cmd.option, cmd.points == 100, timedOut,
            if field in s.timers then s.timers[field] else 0, now, points, s.scores[cmd.pid] + points,
            m.version + 1, cmd.correctId, cmd.explanation, cmd.question.(options := options),
            Position(s.attempts[cmd.pid].questionOrder, cmd.qid), None)
  }

  /** The writes of an accepted answer. */
  function Recorded(s: State, m: Meta, pid: Id, r: Receipt): State
    requires pid in s.participants && pid in s.attempts
  {
    var member := s.participants[pid];
    var cursor := FirstOpen(s.attempts[pid].questionOrder, s.answers.Keys + {(pid, r.questionId)}, pid);
    s.(answers := s.answers[(pid, r.questionId) := r],
       requests := s.requests[(pid, r.submissionId) := r],
       scores := s.scores[pid := r.totalScoreAtAcceptance],
       participants := s.participants[pid := Member(member.name, member.count + 1, cursor)],
       meta := Some(m.(version := m.version + 1)))
  }

  function AnswerStep(s: State, m: Meta, cmd: Command, now: int): (State, Reply)
    requires cmd.Answer? && (cmd.pid in s.participants ==> cmd.pid in s.attempts && cmd.pid in s.scores)
  {
    var pid, qid := cmd.pid, cmd.qid;
    if cmd.epoch != m.epoch then (s, Refused(EpochMismatch))
    else if pid !in s.participants then (s, Refused(NotJoined))
    else if (pid, cmd.rid) in s.requests then
      var r := s.requests[(pid, cmd.rid)];
      if r.questionId != qid || r.selectedOptionId != cmd.option then (s, Refused(IdempotencyConflict))
      else (s, Scored(false, r))
    else if (pid, qid) in s.answers then (s, AlreadyAnswered(s.answers[(pid, qid)]))
    else if s.participants[pid].count >= |m.manifest| then (s, Fault)
    else if cmd.points != 0 && cmd.points != 100 then (s, Fault)
    else if !TimerSound(s.timers, (pid, qid)) then (s, Fault)
    else if qid !in s.attempts[pid].optionOrders then (s, Fault)
    else
      var options := Resolved(cmd.question.options, s.attempts[pid].optionOrders[qid]);
      if options.None? || qid !in s.attempts[pid].questionOrder then (s, Fault)
      else
        var r := ReceiptFor(s, m, cmd, now, options.value);
        (Recorded(s, m, pid, r), Scored(true, r))
  }

  function SnapshotStep(s: State, m: Meta, cmd: Command): (State, Reply)
    requires cmd.Snapshot? && (cmd.viewer.Some? && cmd.viewer.value in s.participants ==>
      cmd.viewer.value in s.attempts)
  {
    if cmd.viewer.None? then (s, Dump(m.epoch, m.version, RevRange(s.scores), s.participants, [], None))
    else if cmd.viewer.value !in s.participants then (s, Refused(NotJoined))
    else
      var plan := s.attempts[cmd.viewer.value];
      var receipts := ReceiptsIn(plan.questionOrder, s.answers, cmd.viewer.value);
      if |receipts| != s.participants[cmd.viewer.value].count then (s, Fault)
      else (s, Dump(m.epoch, m.version, RevRange(s.scores), s.participants, receipts, Some(plan)))
  }

  /** The participant a command names; a public snapshot names none. */
  function PidOf(cmd: Command): Option<Id> {
    match cmd
    case Join(pid, _, _) => Some(pid)
    case Start(pid, _, _, _) => Some(pid)
    case Answer(pid, _, _, _, _, _, _, _, _, _) => Some(pid)
    case Snapshot(viewer) => viewer
    case _ => None
  }

  ghost predicate Preflight(s: State, m: Meta, content: Id, cmd: Command) {
    && 4 <= |m.manifest| <= 8
    && (PidOf(cmd).Some? ==> MemberSound(s, m, content, PidOf(cmd).value))
  }

  ghost function Served(s: State, m: Meta, content: Id, cmd: Command, now: int): (State, Reply) {
    if !RoomSound(s, m) then (s, Fault)
    else if cmd.Seed? then (s, Sealed(m.epoch, m.version))
    else if cmd.Preview? then (s, Previewed)
    else if !Preflight(s, m, content, cmd) then (s, Fault)
    else if cmd.Join? then JoinStep(s, m, content, cmd)
    else if cmd.Start? then StartStep(s, m, cmd, now)
    else if cmd.Answer? then AnswerStep(s, m, cmd, now)
    else if cmd.Snapshot? then SnapshotStep(s, m, cmd)
    else (s, Fault)
  }

  ghost function OpenStep(s: State, content: Id, epoch: Id, capacity: int, manifest: Manifest): (State, Reply) {
    if 1 <= capacity <= 200 then (Opened(epoch, content, capacity, manifest), Sealed(epoch, 0)) else (s, Fault)
  }

  /** One run of the script. */
  ghost function Step(s: State, content: Id, cmd: Command, now: int): (State, Reply) {
    if cmd.Reset? then OpenStep(s, content, cmd.epoch, cmd.capacity, cmd.manifest)
    else if s.meta.None? then
      if !cmd.Seed? then (s, Refused(QuizNotFound))
      else if !Hollow(s) then (s, Fault)
      else OpenStep(s, content, cmd.epoch, cmd.capacity, cmd.manifest)
    else
      var m := s.meta.value;
      if m.content == content then Served(s, m, content, cmd, now)
      else if !cmd.Seed? || cmd.legacy != m.content || !UpgradeSound(s, m, cmd.manifest) then (s, Fault)
      else
        var t := Upgraded(s, m, content);
        Served(t, t.meta.value, content, cmd, now)
  }
}
