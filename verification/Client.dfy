/** The learner client (frontend/src/lib/quiz-machine.ts) as values: its state and what
    each stretch of code between two awaits does to it. Class QuizMachine carries the
    stretches out.

    A stretch resumes when a response arrives, and the browser may resume them in any
    order, so each is an action of its own and carries the generation it was started in. */
module Client {
  import opened Domain
  import opened Store

  /** A submission intent, as it is stored before it is sent. */
  datatype Intent = Intent(quizId: Id, participantId: Id, epoch: Id, questionId: Id, optionId: Id, submissionId: Id)

  datatype Mark = Mark(epoch: Id, participantId: Id, version: int)

  /** What a storage key holds; text that does not parse is Garbled. */
  datatype Slot<T> = Intact(value: T) | Garbled

  /** The storage of one tab, by quiz. It survives a reload. */
  datatype Storage = Storage(intents: map<Id, Slot<Intent>>, marks: map<Id, Slot<Mark>>)

  datatype Ticket = Ticket(epoch: Id, questionId: Id)

  /** The connection states that gate actions; the others are Usable. */
  datatype Gate = Usable | Expired | ResetNeeded

  datatype Failure =
    | Unauthenticated | EpochGone | NotAMember
    | Taken(receipt: Receipt)    // ALREADY_ANSWERED with its receipt
    | ClockRefused               // QUESTION_ALREADY_ANSWERED
    | Definite                   // any other rejection that is not retryable
    | Transient

  datatype Client = Client(
    quizId: Id, state: Option<Learner>, privateVersion: int,
    pending: Option<Intent>, selected: Option<Id>, feedback: Option<Receipt>, clock: Option<Ticket>, gate: Gate,
    generation: nat, requestSequence: nat, appliedSequence: nat, dismissedVersion: int, storage: Storage)

  /** A page that has just loaded. */
  function Loaded(storage: Storage): Client {
    Client(0, None, 0, None, None, None, None, Usable, 0, 0, 0, 0, storage)
  }

  // ---------- Getters ----------

  function Asking(c: Client): Option<Question> {
    if c.feedback.Some? then Some(c.feedback.value.question)
    else if c.state.Some? then c.state.value.currentQuestion
    else None
  }

  function AskingId(c: Client): Option<Id> {
    if Asking(c).Some? then Some(Asking(c).value.id) else None
  }

  predicate Recovering(c: Client) { c.gate != Usable }

  function FindReceipt(rs: seq<Receipt>, qid: Id): (r: Option<Receipt>)
    ensures r.Some? ==> r.value in rs && r.value.questionId == qid
    ensures r.None? ==> forall x :: x in rs ==> x.questionId != qid
  {
    if rs == [] then None
    else if rs[0].questionId == qid then Some(rs[0])
    else FindReceipt(rs[1..], qid)
  }

  predicate CanSelect(c: Client) {
    && Asking(c).Some? && c.pending.None? && c.feedback.None? && !Recovering(c) && c.state.Some?
    && c.clock == Some(Ticket(c.state.value.public.epoch, Asking(c).value.id))
    && var me := FindRow(c.state.value.public.leaderboard, c.state.value.participantId);
    && me.Some? && me.value.answeredCount == c.state.value.answeredCount
  }

  predicate CanAdvance(c: Client) {
    && c.feedback.Some? && c.pending.None? && !Recovering(c) && c.state.Some?
    && c.privateVersion >= c.feedback.value.acceptedVersion
    && FindReceipt(c.state.value.receipts, c.feedback.value.questionId).Some?
  }

  // ---------- Pieces ----------

  function Show(c: Client, r: Receipt): Client {
    c.(feedback := Some(r), selected := Some(r.selectedOptionId))
  }

  /** Removing the stored intent can fail; then it is retained. */
  function Cleared(c: Client, removable: bool): Client {
    c.(pending := None,
       storage := if removable then c.storage.(intents := c.storage.intents - {c.quizId}) else c.storage)
  }

  function Accepted(c: Client, r: Receipt, removable: bool): Client {
    if c.state.None? || r.quizId != c.quizId || r.epoch != c.state.value.public.epoch
      || c.pending.None? || r.questionId != c.pending.value.questionId then c
    else Cleared(Show(c, r), removable)
  }

  /** readDismissed */
  function MarkOf(c: Client): int
    requires c.state.Some?
  {
    if c.quizId in c.storage.marks && c.storage.marks[c.quizId].Intact? then
      var mark := c.storage.marks[c.quizId].value;
      if mark.epoch == c.state.value.public.epoch && mark.participantId == c.state.value.participantId
        && mark.version >= 0
      then mark.version else 0
    else 0
  }

  /** An incoming private state that is not for this quiz, or is older than what was applied. */
  predicate Ignored(c: Client, incoming: Learner, sequence: nat) {
    || incoming.public.quizId != c.quizId || sequence < c.appliedSequence
    || (c.state.Some? && c.state.value.public.epoch == incoming.public.epoch
        && incoming.public.version < c.privateVersion)
  }

  /** Private fields are the incoming ones; newer standings of the same epoch stay. */
  function Merged(previous: Option<Learner>, incoming: Learner): Learner {
    if previous.Some? && previous.value.public.epoch == incoming.public.epoch
      && previous.value.public.version > incoming.public.version
    then incoming.(public := previous.value.public.(quizId := incoming.public.quizId))
    else incoming
  }

  function Foreign(c: Client, incoming: Learner): bool {
    c.pending.Some?
    && (c.pending.value.epoch != incoming.public.epoch || c.pending.value.participantId != incoming.participantId)
  }

  function Took(c: Client, incoming: Learner, sequence: nat, removable: bool): Client {
    var d := c.(appliedSequence := sequence, privateVersion := incoming.public.version,
                state := Some(Merged(c.state, incoming)));
    if Foreign(d, incoming) then Cleared(d, removable) else d
  }

  /** A first state or a new epoch starts without feedback. */
  function Turned(c: Client, previous: Option<Learner>): Client
    requires c.state.Some?
  {
    if previous.None? || previous.value.public.epoch != c.state.value.public.epoch
    then c.(feedback := None, selected := None, dismissedVersion := MarkOf(c))
    else c
  }

  function Settled(c: Client, receipts: seq<Receipt>, removable: bool): Client {
    if c.pending.Some? && FindReceipt(receipts, c.pending.value.questionId).Some?
    then Accepted(c, FindReceipt(receipts, c.pending.value.questionId).value, removable)
    else c
  }

  /** The latest receipt shows until it is dismissed. */
  function Latest(c: Client, receipts: seq<Receipt>, before: Option<Id>): Client {
    if c.feedback.Some? || c.pending.Some? then c
    else if receipts != [] && receipts[|receipts| - 1].acceptedVersion > c.dismissedVersion
    then Show(c, receipts[|receipts| - 1])
    else if before != AskingId(c) then c.(selected := None)
    else c
  }

  /** applyPrivate */
  function Applied(c: Client, incoming: Learner, sequence: nat, removable: bool): Client {
    if Ignored(c, incoming, sequence) then c
    else
      var d := Turned(Took(c, incoming, sequence, removable), c.state);
      Latest(Settled(d, incoming.receipts, removable), incoming.receipts, AskingId(c))
  }

  /** loadPending */
  function WithPending(c: Client, removable: bool): Client {
    if c.quizId !in c.storage.intents then c
    else if c.storage.intents[c.quizId].Garbled? then c.(gate := Usable)
    else
      var i := c.storage.intents[c.quizId].value;
      if i.quizId != c.quizId || c.state.None? || i.participantId != c.state.value.participantId
        || i.epoch != c.state.value.public.epoch
      then Cleared(c, removable)
      else c.(pending := Some(i), feedback := None, selected := Some(i.optionId))
  }

  /** sendPending up to its request. */
  function Sending(c: Client): Option<Intent> {
    if c.pending.None? || c.state.None? || c.pending.value.epoch != c.state.value.public.epoch then None
    else c.pending
  }

  /** resolvePending: a receipt settles the intent, otherwise it is sent. */
  function Resolve(c: Client, removable: bool): (Client, Option<Intent>) {
    if c.pending.None? || c.state.None? then (c, None)
    else
      var r := FindReceipt(c.state.value.receipts, c.pending.value.questionId);
      if r.Some? then (Accepted(c, r.value, removable), None) else (c, Sending(c))
  }

  function GateAfter(f: Failure): Gate {
    match f
    case Unauthenticated => Expired
    case EpochGone => ResetNeeded
    case NotAMember => ResetNeeded
    case _ => Usable
  }

  // ---------- Actions ----------

  datatype Action =
    | JoinBegin(quizId: Id)
    | JoinDone(g: nat, incoming: Learner, removable: bool)
    | SyncBegin
    | SyncDone(g: nat, incoming: Learner, removable: bool, sequence: nat)
    | Failing(g: nat, failure: Failure)
    | StartDone(g: nat, asked: Ticket, given: Ticket)
    | StartFailed(g: nat, asked: Ticket, failure: Failure)
    | RereadDone(g: nat, incoming: Learner, removable: bool)
    | Select(option: Option<Id>)
    | Submit(uuid: Id, writable: bool)
    | AnswerDone(g: nat, rid: Id, receipt: Receipt, removable: bool)
    | AnswerFailed(g: nat, rid: Id, failure: Failure, removable: bool)
    | Receive(snapshot: Public)
    | SocketStatus(status: Gate)
    | Next(writable: bool)
    | Stop
    | Restarted(g: nat, removable: bool)
    | Leave
    | Reload

  function Stopped(c: Client): Client {
    c.(generation := c.generation + 1, requestSequence := 0, appliedSequence := 0)
  }

  function Joining(c: Client, quizId: Id): Client {
    Stopped(c).(quizId := quizId, state := None, gate := Usable, pending := None, feedback := None,
                selected := None, clock := None, privateVersion := 0, dismissedVersion := 0)
  }

  function Counted(c: Client): Client {
    c.(requestSequence := c.requestSequence + 1)
  }

  /** The state a start was made for is still on screen. */
  predicate StillAsking(c: Client, g: nat, asked: Ticket) {
    && g == c.generation && c.state.Some? && c.state.value.public.epoch == asked.epoch
    && c.state.value.currentQuestion.Some? && c.state.value.currentQuestion.value.id == asked.questionId
    && c.feedback.None?
  }

  function Submitted(c: Client, uuid: Id, writable: bool): (Client, Option<Intent>) {
    if c.selected.None? || c.pending.Some? || c.feedback.Some? || !CanSelect(c) || !writable then (c, None)
    else
      var i := Intent(c.quizId, c.state.value.participantId, c.state.value.public.epoch, Asking(c).value.id,
                      c.selected.value, uuid);
      var d := c.(storage := c.storage.(intents := c.storage.intents[c.quizId := Intact(i)]), pending := Some(i));
      (d, Sending(d))
  }

  predicate Current(c: Client, g: nat, rid: Id) {
    g == c.generation && c.pending.Some? && c.pending.value.submissionId == rid
  }

  function Answered(c: Client, r: Receipt, removable: bool): Client {
    var d := Accepted(c, r, removable);
    if d.pending.Some? then d else Counted(d)
  }

  function Refused(c: Client, f: Failure, removable: bool): Client {
    match f
    case Taken(r) => Counted(Accepted(c, r, removable))
    case Unauthenticated => c.(gate := GateAfter(f))
    case EpochGone => c.(gate := GateAfter(f))
    case NotAMember => c.(gate := GateAfter(f))
    case ClockRefused => Cleared(c, removable)
    case Definite => Cleared(c, removable)
    case Transient => c
  }

  /** receive: only public fields of the same epoch are taken from a socket. */
  function Received(c: Client, p: Public): Client {
    if c.state.None? || p.quizId != c.quizId then c
    else if p.epoch != c.state.value.public.epoch then Counted(c)
    else if p.version < c.state.value.public.version then c
    else
      var d := if p.version > c.state.value.public.version then c.(state := Some(c.state.value.(public := p))) else c;
      var me := FindRow(p.leaderboard, d.state.value.participantId);
      if me.Some? && me.value.answeredCount > d.state.value.answeredCount
      then Counted(d.(gate := Usable)) else d.(gate := Usable)
  }

  function Advanced(c: Client, writable: bool): Client {
    if !CanAdvance(c) then c
    else
      var version := c.feedback.value.acceptedVersion;
      var mark := Mark(c.state.value.public.epoch, c.state.value.participantId, version);
      var d := c.(dismissedVersion := version, feedback := None, selected := None,
                  storage := if writable then c.storage.(marks := c.storage.marks[c.quizId := Intact(mark)])
                    else c.storage);
      var rs := c.state.value.receipts;
      if rs != [] && rs[|rs| - 1].acceptedVersion > version then Show(d, rs[|rs| - 1]) else d
  }

  /** The client after an action, and the intent the action puts on the wire. */
  function Act(c: Client, a: Action): (Client, Option<Intent>) {
    match a
    case JoinBegin(quizId) => (Joining(c, quizId), None)
    case JoinDone(g, incoming, removable) =>
      if g != c.generation then (c, None)
      else
        var d := Counted(c);
        Resolve(WithPending(Applied(d, incoming, d.requestSequence, removable), removable), removable)
    case SyncBegin => (Counted(c), None)
    case SyncDone(g, incoming, removable, sequence) =>
      if g != c.generation then (c, None) else Resolve(Applied(c, incoming, sequence, removable), removable)
    case Failing(g, failure) =>
      if g != c.generation then (c, None) else (c.(gate := GateAfter(failure)), None)
    case StartDone(g, asked, given) =>
      if !StillAsking(c, g, asked) then (c, None)
      else if given != asked then (c.(gate := Usable), None)
      else (c.(clock := Some(given)), None)
    case StartFailed(g, asked, failure) =>
      if !StillAsking(c, g, asked) || failure.ClockRefused? then (c, None)
      else (c.(gate := GateAfter(failure)), None)
    case RereadDone(g, incoming, removable) =>
      if g != c.generation then (c, None)
      else (Applied(Counted(c), incoming, Counted(c).requestSequence, removable), None)
    case Select(option) => (c.(selected := option), None)
    case Submit(uuid, writable) => Submitted(c, uuid, writable)
    case AnswerDone(g, rid, receipt, removable) =>
      if !Current(c, g, rid) then (c, None) else (Answered(c, receipt, removable), None)
    case AnswerFailed(g, rid, failure, removable) =>
      if !Current(c, g, rid) then (c, None) else (Refused(c, failure, removable), None)
    case Receive(snapshot) => (Received(c, snapshot), None)
    case SocketStatus(status) => (c.(gate := status), None)
    case Next(writable) => (Advanced(c, writable), None)
    case Stop => (Stopped(c), None)
    case Restarted(g, removable) =>
      if g != c.generation then (c, None) else (Joining(Cleared(c, removable), c.quizId), None)
    case Leave => (Stopped(c).(state := None, gate := Usable), None)
    case Reload => (Loaded(c.storage), None)
  }
}
