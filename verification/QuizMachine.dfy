/** The learner client as the program has it: one object whose fields the methods
    change. Each method is the code between two awaits and is proved to do what module
    Client says of it. */
module QuizMachines {
  import opened Domain
  import opened Store
  import opened Client

  class QuizMachine {
    var quizId: Id
    var state: Option<Learner>
    var privateVersion: int
    var pending: Option<Intent>
    var selected: Option<Id>
    var feedback: Option<Receipt>
    var clock: Option<Ticket>
    var gate: Gate
    var generation: nat
    var requestSequence: nat
    var appliedSequence: nat
    var dismissedVersion: int
    var storage: Storage
    /** The clock being asked for, and in which generation. */
    var starting: Option<(nat, Ticket)>

    constructor (kept: Storage)
      ensures Now() == Loaded(kept)
    {
      quizId, state, privateVersion, pending := 0, None, 0, None;
      selected, feedback, clock, gate := None, None, None, Usable;
      generation, requestSequence, appliedSequence, dismissedVersion := 0, 0, 0, 0;
      storage := kept;
      starting := None;
    }

    ghost function Now(): Client
      reads this
    {
      Client(quizId, state, privateVersion, pending, selected, feedback, clock, gate,
             generation, requestSequence, appliedSequence, dismissedVersion, storage)
    }

    // ---------- Getters ----------

    function Question(): (r: Option<Domain.Question>)
      reads this
      ensures r == Asking(Now())
    {
      if feedback.Some? then Some(feedback.value.question)
      else if state.Some? then state.value.currentQuestion
      else None
    }

    function QuestionId(): (r: Option<Id>)
      reads this
      ensures r == AskingId(Now())
    {
      if Question().Some? then Some(Question().value.id) else None
    }

    predicate NeedsRecovery()
      reads this
      ensures NeedsRecovery() == Recovering(Now())
    {
      gate == Expired || gate == ResetNeeded
    }

    predicate MaySelect()
      reads this
      ensures MaySelect() == CanSelect(Now())
    {
      && Question().Some? && pending.None? && feedback.None? && !NeedsRecovery() && state.Some?
      && clock.Some? && clock.value.questionId == Question().value.id && clock.value.epoch == state.value.public.epoch
      && var me := FindRow(state.value.public.leaderboard, state.value.participantId);
      && me.Some? && me.value.answeredCount == state.value.answeredCount
    }

    predicate MayAdvance()
      reads this
      ensures MayAdvance() == CanAdvance(Now())
    {
      && feedback.Some? && pending.None? && !NeedsRecovery()
      && privateVersion >= feedback.value.acceptedVersion
      && state.Some? && FindReceipt(state.value.receipts, feedback.value.questionId).Some?
    }

    // ---------- Pieces ----------

    method ShowFeedback(receipt: Receipt)
      modifies this
      ensures starting == old(starting)
      ensures Now() == Show(old(Now()), receipt)
    {
      feedback := Some(receipt);
      selected := Some(receipt.selectedOptionId);
    }

    method ClearPending(removable: bool)
      modifies this
      ensures starting == old(starting)
      ensures Now() == Cleared(old(Now()), removable)
    {
      if removable {
        storage := storage.(intents := storage.intents - {quizId});
      }
      pending := None;
    }

    method Accept(receipt: Receipt, removable: bool)
      modifies this
      ensures starting == old(starting)
      ensures Now() == Accepted(old(Now()), receipt, removable)
    {
      if state.None? || receipt.quizId != quizId || receipt.epoch != state.value.public.epoch {
        return;
      }
      if pending.None? || receipt.questionId != pending.value.questionId {
        return;
      }
      ShowFeedback(receipt);
      ClearPending(removable);
    }

    method ReadDismissed() returns (version: int)
      requires state.Some?
      ensures version == MarkOf(Now())
    {
      if quizId !in storage.marks || storage.marks[quizId].Garbled? {
        return 0;
      }
      var mark := storage.marks[quizId].value;
      if mark.epoch != state.value.public.epoch || mark.participantId != state.value.participantId || mark.version < 0 {
        return 0;
      }
      version := mark.version;
    }

    /** ApplyPrivate, first part: the private fields are replaced, newer standings of the
        same epoch are kept, and an intent for another room or person is dropped. */
    method Take(incoming: Learner, sequence: nat, removable: bool)
      modifies this
      ensures starting == old(starting)
      ensures Now() == Took(old(Now()), incoming, sequence, removable) && state.Some?
    {
      hide MarkOf, Asking;
      appliedSequence := sequence;
      privateVersion := incoming.public.version;
      var previous := state;
      var next := incoming;
      if previous.Some? && previous.value.public.epoch == incoming.public.epoch
        && previous.value.public.version > incoming.public.version
      {
        var kept := previous.value.public;
        next := incoming.(public := incoming.public.(version := kept.version, participantCount := kept.participantCount,
                                                      leaderboard := kept.leaderboard));
      }
      state := Some(next);
      if pending.Some?
        && (pending.value.epoch != next.public.epoch || pending.value.participantId != next.participantId)
      {
        ClearPending(removable);
      }
    }

    method Turn(previous: Option<Learner>)
      requires state.Some?
      modifies this
      ensures starting == old(starting)
      ensures Now() == Turned(old(Now()), previous)
    {
      if previous.None? || previous.value.public.epoch != state.value.public.epoch {
        feedback := None;
        selected := None;
        dismissedVersion := ReadDismissed();
      }
    }

    method Settle(receipts: seq<Receipt>, removable: bool)
      modifies this
      ensures starting == old(starting)
      ensures Now() == Settled(old(Now()), receipts, removable)
    {
      if pending.Some? {
        var receipt := FindReceipt(receipts, pending.value.questionId);
        if receipt.Some? {
          Accept(receipt.value, removable);
        }
      }
    }

    method ShowLatest(receipts: seq<Receipt>, previousQuestion: Option<Id>)
      modifies this
      ensures starting == old(starting)
      ensures Now() == Latest(old(Now()), receipts, previousQuestion)
    {
      if feedback.None? && pending.None? {
        if receipts != [] && receipts[|receipts| - 1].acceptedVersion > dismissedVersion {
          ShowFeedback(receipts[|receipts| - 1]);
        } else if previousQuestion != QuestionId() {
          selected := None;
        }
      }
    }

    method ApplyPrivate(incoming: Learner, sequence: nat, removable: bool)
      modifies this
      ensures starting == old(starting)
      ensures Now() == Applied(old(Now()), incoming, sequence, removable)
    {
      hide Turned, Settled, Latest, Merged, Cleared, Asking;
      if incoming.public.quizId != quizId || sequence < appliedSequence {
        return;
      }
      var previous := state;
      if previous.Some? && previous.value.public.epoch == incoming.public.epoch
        && incoming.public.version < privateVersion
      {
        return;
      }
      var previousQuestion := QuestionId();
      Take(incoming, sequence, removable);
      Turn(previous);
      Settle(incoming.receipts, removable);
      ShowLatest(incoming.receipts, previousQuestion);
    }

    method LoadPending(removable: bool)
      modifies this
      ensures starting == old(starting)
      ensures Now() == WithPending(old(Now()), removable)
    {
      if quizId !in storage.intents {
        return;
      }
      match storage.intents[quizId] {
        case Garbled =>
          gate := Usable;
        case Intact(intent) =>
          if intent.quizId != quizId || state.None? || intent.participantId != state.value.participantId
            || intent.epoch != state.value.public.epoch
          {
            ClearPending(removable);
          } else {
            pending := Some(intent);
            feedback := None;
            selected := Some(intent.optionId);
          }
      }
    }

    /** Up to the request it makes. */
    method SendPending() returns (send: Option<Intent>)
      ensures send == Sending(Now())
    {
      if pending.None? || state.None? || pending.value.epoch != state.value.public.epoch {
        return None;
      }
      send := pending;
    }

    method ResolvePending(removable: bool) returns (send: Option<Intent>)
      modifies this
      ensures starting == old(starting)
      ensures (Now(), send) == Resolve(old(Now()), removable)
    {
      if pending.None? || state.None? {
        return None;
      }
      var receipt := FindReceipt(state.value.receipts, pending.value.questionId);
      if receipt.Some? {
        Accept(receipt.value, removable);
        return None;
      }
      send := SendPending();
    }

    method Fail(failure: Failure)
      modifies this
      ensures starting == old(starting)
      ensures Now() == old(Now()).(gate := GateAfter(failure))
    {
      match failure {
        case Unauthenticated => gate := Expired;
        case EpochGone => gate := ResetNeeded;
        case NotAMember => gate := ResetNeeded;
        case _ => gate := Usable;
      }
    }

    method Stop()
      modifies this
      ensures starting == None
      ensures Now() == Stopped(old(Now()))
    {
      generation := generation + 1;
      requestSequence := 0;
      appliedSequence := 0;
      starting := None;
    }

    // ---------- Joining ----------

    method Join(id: Id)
      modifies this
      ensures starting == None
      ensures Now() == Act(old(Now()), JoinBegin(id)).0
    {
      Stop();
      quizId := id;
      state, gate, pending, feedback := None, Usable, None, None;
      selected, clock := None, None;
      privateVersion, dismissedVersion := 0, 0;
    }

    /** The session's answer: joining goes on only for the identity known before, if any;
        another one ends in an expired session. `kept` is what storage holds of it. */
    method Identified(g: nat, previous: Option<Id>, identity: Id) returns (goOn: bool, kept: Option<Id>)
      modifies this
      ensures starting == old(starting)
      ensures goOn <==> g == generation && (previous.Some? ==> previous.value == identity)
      ensures kept == if goOn then Some(identity) else previous
      ensures Now() == if g == generation && !goOn then Act(old(Now()), SocketStatus(Expired)).0 else old(Now())
    {
      if g != generation {
        return false, previous;
      }
      if previous.Some? && previous.value != identity {
        gate := Expired;
        return false, previous;
      }
      return true, Some(identity);
    }

    method Joined(g: nat, incoming: Learner, removable: bool) returns (send: Option<Intent>)
      modifies this
      ensures starting == old(starting)
      ensures (Now(), send) == Act(old(Now()), JoinDone(g, incoming, removable))
    {
      if g != generation {
        return None;
      }
      requestSequence := requestSequence + 1;
      ApplyPrivate(incoming, requestSequence, removable);
      LoadPending(removable);
      send := ResolvePending(removable);
    }

    method SessionRestarted(g: nat, removable: bool)
      modifies this
      ensures starting == if g == old(generation) then None else old(starting)
      ensures Now() == Act(old(Now()), Restarted(g, removable)).0
    {
      if g != generation {
        return;
      }
      ClearPending(removable);
      Join(quizId);
    }

    // ---------- Synchronizing ----------

    method Synchronize() returns (sequence: nat)
      modifies this
      ensures starting == old(starting)
      ensures Now() == Act(old(Now()), SyncBegin).0 && sequence == requestSequence
    {
      requestSequence := requestSequence + 1;
      sequence := requestSequence;
    }

    method Synchronized(g: nat, incoming: Learner, removable: bool, sequence: nat) returns (send: Option<Intent>)
      modifies this
      ensures starting == old(starting)
      ensures (Now(), send) == Act(old(Now()), SyncDone(g, incoming, removable, sequence))
    {
      if g != generation {
        return None;
      }
      ApplyPrivate(incoming, sequence, removable);
      send := ResolvePending(removable);
    }

    method RequestFailed(g: nat, failure: Failure)
      modifies this
      ensures starting == old(starting)
      ensures Now() == Act(old(Now()), Failing(g, failure)).0
    {
      if g == generation {
        Fail(failure);
      }
    }

    // ---------- The question clock ----------

    /** What a clock is asked for, if anything: not for one that is being asked for. */
    method StartCurrentQuestion(g: nat) returns (asked: Option<Ticket>)
      modifies this`starting
      ensures asked.Some? <==>
        && g == generation && state.Some? && state.value.currentQuestion.Some? && feedback.None? && pending.None?
        && gate == Usable
        && clock != Some(Ticket(state.value.public.epoch, state.value.currentQuestion.value.id))
        && old(starting) != Some((g, Ticket(state.value.public.epoch, state.value.currentQuestion.value.id)))
      ensures asked.Some? ==> StillAsking(Now(), g, asked.value)
      ensures starting == if asked.Some? then Some((g, asked.value)) else old(starting)
    {
      if g != generation || state.None? || state.value.currentQuestion.None? || feedback.Some? || pending.Some?
        || NeedsRecovery()
      {
        return None;
      }
      var ticket := Ticket(state.value.public.epoch, state.value.currentQuestion.value.id);
      if clock.Some? && clock.value.epoch == ticket.epoch && clock.value.questionId == ticket.questionId {
        return None;
      }
      if starting == Some((g, ticket)) {
        return None;
      }
      starting := Some((g, ticket));
      asked := Some(ticket);
    }

    /** The end of a request for a clock, however it went. */
    method ClockSettled(g: nat, asked: Ticket)
      modifies this`starting
      ensures starting == if old(starting) == Some((g, asked)) then None else old(starting)
    {
      if starting == Some((g, asked)) {
        starting := None;
      }
    }

    method ClockGiven(g: nat, asked: Ticket, given: Ticket)
      modifies this
      ensures starting == old(starting)
      ensures Now() == Act(old(Now()), StartDone(g, asked, given)).0
    {
      if g != generation || state.None? || state.value.public.epoch != asked.epoch
        || state.value.currentQuestion.None? || state.value.currentQuestion.value.id != asked.questionId
        || feedback.Some?
      {
        return;
      }
      if given.epoch != asked.epoch || given.questionId != asked.questionId {
        Fail(Transient);
        return;
      }
      clock := Some(given);
    }

    /** The question may have been answered elsewhere: then the state is read again. */
    method ClockFailed(g: nat, asked: Ticket, failure: Failure) returns (reread: bool)
      modifies this
      ensures starting == old(starting)
      ensures Now() == Act(old(Now()), StartFailed(g, asked, failure)).0
      ensures reread <==> old(StillAsking(Now(), g, asked)) && failure.ClockRefused?
    {
      if g != generation || state.None? || state.value.public.epoch != asked.epoch
        || state.value.currentQuestion.None? || state.value.currentQuestion.value.id != asked.questionId
        || feedback.Some?
      {
        return false;
      }
      if failure.ClockRefused? {
        return true;
      }
      Fail(failure);
      reread := false;
    }

    method Reread(g: nat, incoming: Learner, removable: bool)
      modifies this
      ensures starting == old(starting)
      ensures Now() == Act(old(Now()), RereadDone(g, incoming, removable)).0
    {
      hide Applied;
      if g != generation {
        return;
      }
      requestSequence := requestSequence + 1;
      ApplyPrivate(incoming, requestSequence, removable);
    }

    // ---------- Answering ----------

    method Submit(uuid: Id, writable: bool) returns (send: Option<Intent>)
      modifies this
      ensures starting == old(starting)
      ensures (Now(), send) == Act(old(Now()), Action.Submit(uuid, writable))
    {
      if state.None? || Question().None? || selected.None? || pending.Some? || feedback.Some? || !MaySelect() {
        return None;
      }
      var intent := Intent(quizId, state.value.participantId, state.value.public.epoch, Question().value.id,
        selected.value, uuid);
      if !writable {
        return None;
      }
      storage := storage.(intents := storage.intents[quizId := Intact(intent)]);
      pending := Some(intent);
      send := SendPending();
    }

    method AnswerArrived(g: nat, rid: Id, receipt: Receipt, removable: bool)
      modifies this
      ensures starting == old(starting)
      ensures Now() == Act(old(Now()), AnswerDone(g, rid, receipt, removable)).0
    {
      if g != generation || pending.None? || pending.value.submissionId != rid {
        return;
      }
      Accept(receipt, removable);
      if pending.Some? {
        return;
      }
      var _ := Synchronize();
    }

    method AnswerRefused(g: nat, rid: Id, failure: Failure, removable: bool)
      modifies this
      ensures starting == old(starting)
      ensures Now() == Act(old(Now()), AnswerFailed(g, rid, failure, removable)).0
    {
      if g != generation || pending.None? || pending.value.submissionId != rid {
        return;
      }
      match failure {
        case Taken(receipt) =>
          Accept(receipt, removable);
          var _ := Synchronize();
        case Unauthenticated => Fail(failure);
        case EpochGone => Fail(failure);
        case NotAMember => Fail(failure);
        case Transient =>
        case _ => ClearPending(removable);
      }
    }

    method Next(writable: bool)
      modifies this
      ensures starting == old(starting)
      ensures Now() == Act(old(Now()), Action.Next(writable)).0
    {
      hide CanAdvance, FindReceipt;
      assert MayAdvance() == CanAdvance(Now());
      if feedback.None? || state.None? || !MayAdvance() {
        return;
      }
      dismissedVersion := feedback.value.acceptedVersion;
      if writable {
        var mark := Mark(state.value.public.epoch, state.value.participantId, dismissedVersion);
        storage := storage.(marks := storage.marks[quizId := Intact(mark)]);
      }
      feedback := None;
      selected := None;
      var receipts := state.value.receipts;
      if receipts != [] && receipts[|receipts| - 1].acceptedVersion > dismissedVersion {
        ShowFeedback(receipts[|receipts| - 1]);
      }
    }

    // ---------- The socket ----------

    method Receive(snapshot: Public)
      modifies this
      ensures starting == old(starting)
      ensures Now() == Act(old(Now()), Action.Receive(snapshot)).0
    {
      if state.None? || snapshot.quizId != quizId {
        return;
      }
      if snapshot.epoch != state.value.public.epoch {
        var _ := Synchronize();
        return;
      }
      if snapshot.version < state.value.public.version {
        return;
      }
      if snapshot.version > state.value.public.version {
        state := Some(state.value.(public := state.value.public.(version := snapshot.version,
          participantCount := snapshot.participantCount, leaderboard := snapshot.leaderboard,
          quizId := snapshot.quizId)));
      }
      var me := FindRow(snapshot.leaderboard, state.value.participantId);
      if me.Some? && me.value.answeredCount > state.value.answeredCount {
        gate := Usable;
        var _ := Synchronize();
        return;
      }
      gate := Usable;
    }

    method SocketSaid(status: Gate)
      modifies this
      ensures starting == old(starting)
      ensures Now() == Act(old(Now()), SocketStatus(status)).0
    {
      gate := status;
    }

    method Leave()
      modifies this
      ensures starting == None
      ensures Now() == Act(old(Now()), Action.Leave).0
    {
      Stop();
      state := None;
      gate := Usable;
    }
  }
}
