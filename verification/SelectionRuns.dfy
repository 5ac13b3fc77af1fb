/** Whose choice a submitted option is, over whole runs of client, network and server. */
module SelectionRuns {
  import opened Domain
  import opened Attempt
  import opened Room
  import opened RoomInvariant
  import opened RoomRuns
  import opened Store
  import opened Protocol
  import opened Acceptance
  import opened Snapshots
  import opened Client
  import opened ClientInvariant
  import opened ClientPromises
  import opened EndToEnd
  import opened EpochOrder

  // ---------- The question asked stays until it is answered ----------

  lemma TaughtNamesQuestion(q: Quiz, r: Receipt)
    ensures Teach(q, r).questionId == r.questionId
  {
  }

  /** Two rooms of one epoch of which the second has no lower version: the learner's plan is
      the same, and what was answered in the first is answered in the second. */
  lemma LaterRoomHasAnswers(q: Quiz, events: seq<Event>, who: Id, i: nat, j: nat, qid: Id)
    requires Lawful(q, events) && i <= |events| && j <= |events|
    requires RoomAt(q, events, i).meta.Some? && RoomAt(q, events, j).meta.Some?
    requires RoomAt(q, events, i).meta.value.epoch == RoomAt(q, events, j).meta.value.epoch
    requires RoomAt(q, events, i).meta.value.version <= RoomAt(q, events, j).meta.value.version
    requires who in RoomAt(q, events, i).attempts
    ensures who in RoomAt(q, events, j).attempts
      && RoomAt(q, events, j).attempts[who] == RoomAt(q, events, i).attempts[who]
    ensures (who, qid) in RoomAt(q, events, i).answers ==> (who, qid) in RoomAt(q, events, j).answers
  {
    hide LiveQuiz, Proper, FreshEpochs, Before;
    if i <= j {
      SameEpochExtends(q, Blank(), events, i, j);
    } else {
      SameEpochExtends(q, Blank(), events, j, i);
    }
  }

  /** The first open question of a plan, given which of its questions are answered. */
  ghost predicate FirstUnanswered(s: State, who: Id, order: seq<Id>, n: int) {
    && 1 <= n <= |order| && (who, order[n - 1]) !in s.answers
    && forall i :: 0 <= i < n - 1 ==> (who, order[i]) in s.answers
  }

  lemma OneFirst(s: State, who: Id, order: seq<Id>, m: int, n: int)
    requires FirstUnanswered(s, who, order, m) && FirstUnanswered(s, who, order, n)
    ensures m == n
  {
  }

  /** Of two states the server said of one learner and epoch, the question the earlier asks is
      the question the later asks as long as it has no receipt there. */
  lemma QuestionStays(q: Quiz, events: seq<Event>, who: Id, i: nat, j: nat, v: Learner, u: Learner)
    requires Lawful(q, events) && SaysState(q, events, who, i, v) && SaysState(q, events, who, j, u)
    requires v.public.epoch == u.public.epoch && v.public.version <= u.public.version
    requires v.currentQuestion.Some? && !HasReceipt(u.receipts, v.currentQuestion.value.id)
    ensures u.currentQuestion == v.currentQuestion
  {
    hide Lawful, RoomAt, Inv, View, Assembles, StandingsTold, FiguresTold, Presented, HasReceipt, PublicOf;
    var s, t := RoomAt(q, events, i), RoomAt(q, events, j);
    SaidTells(q, events, who, i, v);
    SaidTells(q, events, who, j, u);
    var order := s.attempts[who].questionOrder;
    forall qid: Id
      ensures (who, qid) in s.answers ==> (who, qid) in t.answers
    {
      LaterRoomHasAnswers(q, events, who, i, j, qid);
    }
    LaterRoomHasAnswers(q, events, who, i, j, 0);
    StillOpen(q, events, who, j, u, v.currentQuestion.value.id);
    var n := v.questionNumber;
    assert FirstUnanswered(t, who, order, n);
    assert order[n - 1] in order;
    OneFirst(t, who, order, n, u.questionNumber);
  }

  /** What a state that was said tells of its room. */
  lemma SaidTells(q: Quiz, events: seq<Event>, who: Id, k: nat, v: Learner)
    requires Lawful(q, events) && SaysState(q, events, who, k, v)
    ensures
      var s := RoomAt(q, events, k);
      && s.meta.Some? && Inv(q, q.contentVersion, s) && who in s.participants && who in s.attempts
      && v.public.epoch == s.meta.value.epoch && v.public.version == s.meta.value.version
      && HistoryTold(q, s, who, v) && QuestionTold(q, s, who, v)
      && (v.currentQuestion.Some? ==>
            v.currentQuestion.value.id == s.attempts[who].questionOrder[v.questionNumber - 1])
  {
    hide LiveQuiz, Proper, FreshEpochs, RoomAt, Inv, View, HistoryTold, Assembles, FiguresTold, PublicOf, PlanFits;
    var s := RoomAt(q, events, k);
    RoomHasInv(q, events, k);
    SnapshotTells(q, s.meta.value, s, who);
    if v.currentQuestion.Some? {
      var qid := s.attempts[who].questionOrder[v.questionNumber - 1];
      LookupKnown(q, qid);
    }
  }

  /** A question without a receipt in a state that was said is unanswered in its room. */
  lemma StillOpen(q: Quiz, events: seq<Event>, who: Id, k: nat, u: Learner, qid: Id)
    requires Lawful(q, events) && SaysState(q, events, who, k, u) && !HasReceipt(u.receipts, qid)
    ensures (who, qid) !in RoomAt(q, events, k).answers
  {
    hide LiveQuiz, Proper, FreshEpochs, RoomAt, Inv, View, Assembles, QuestionTold, Teach, Strict;
    SaidTells(q, events, who, k, u);
    var s := RoomAt(q, events, k);
    if (who, qid) in s.answers {
      var x := Teach(q, s.answers[(who, qid)]);
      assert x in u.receipts;
      var i :| 0 <= i < |u.receipts| && u.receipts[i] == x;
      TaughtNamesQuestion(q, s.answers[(who, qid)]);
      EpochOf(q, s, (who, qid));
    }
  }

  // ---------- Where a selection comes from ----------

  function QuestionOn(c: Client): Option<Id> {
    if c.state.Some? && c.state.value.currentQuestion.Some? then Some(c.state.value.currentQuestion.value.id) else None
  }

  /** The option is selected for the question of the state; nothing else is pending or shown. */
  predicate Holding(c: Client, option: Id, qid: Id) {
    && c.selected == Some(option) && c.feedback.None? && QuestionOn(c) == Some(qid)
    && (c.pending.Some? ==> c.pending.value.questionId == qid)
  }

  /** An option selected while no result is shown. */
  predicate Chosen(c: Client, option: Id) {
    c.selected == Some(option) && c.feedback.None? && c.state.Some?
  }

  /** A join that takes up a stored intent, with its option. */
  ghost predicate TakesUp(c: Client, a: Action, option: Id) {
    && a.JoinDone? && Act(c, a).0.pending.Some? && Act(c, a).0.pending.value.optionId == option
    && ClientInvariant.Holds(c.storage, Act(c, a).0.pending.value)
  }

  /** The learner selects the option, or a stored intent with it is taken up. */
  ghost predicate Chooses(c: Client, a: Action, option: Id) {
    a == Select(Some(option)) || TakesUp(c, a, option)
  }

  lemma ViewsAreOfOneRoom(t: Truth, who: Id, v: Learner)
    requires Coherent(t, who) && v in t.views
    ensures OfOneRoom(v)
  {
    hide Coherent;
    IncomingReceipts(t, who, v);
  }

  lemma SafeParts(t: Truth, who: Id, c: Client)
    requires Safe(t, who, c)
    ensures c.pending.Some? ==> c.feedback.None?
    ensures c.state.Some? && c.pending.Some? ==>
      c.pending.value.epoch == c.state.value.public.epoch && c.pending.value.participantId == who
  {
    hide Genuine, FindReceipt;
  }

  /** A read does not select: what is selected after it, with no result shown, was selected
      before it, in the same epoch. */
  lemma ReadSelectsNothing(t: Truth, who: Id, c: Client, incoming: Learner, sequence: nat, removable: bool, option: Id)
    requires Coherent(t, who) && incoming in t.views && Safe(t, who, c)
    requires Chosen(Applied(c, incoming, sequence, removable), option)
    ensures Chosen(c, option)
    ensures c.state.Some?
      && Applied(c, incoming, sequence, removable).state.value.public.epoch == c.state.value.public.epoch
    ensures !Ignored(c, incoming, sequence) ==> !StartsAnew(c, incoming)
  {
    hide Coherent, Safe, Applied, HasReceipt, DismissedUpTo, AskingId, LatestOpen, OfOneRoom;
    if Ignored(c, incoming, sequence) {
      IgnoredChangesNothing(c, incoming, sequence, removable);
    } else {
      ViewsAreOfOneRoom(t, who, incoming);
      SafeParts(t, who, c);
      ReadIsTaken(c, incoming, sequence, removable);
    }
  }

  lemma IgnoredChangesNothing(c: Client, incoming: Learner, sequence: nat, removable: bool)
    requires Ignored(c, incoming, sequence)
    ensures Applied(c, incoming, sequence, removable) == c
  {
  }

  /** Resolving, and taking up a stored intent, select nothing but that intent's option. */
  lemma ResolvedSelection(c: Client, removable: bool, option: Id)
    requires Chosen(Resolve(c, removable).0, option)
    ensures Resolve(c, removable).0 == c
  {
    hide FindReceipt;
  }

  lemma TakenUpSelection(c: Client, removable: bool, option: Id)
    requires Chosen(Resolve(WithPending(c, removable), removable).0, option)
    ensures
      var d := Resolve(WithPending(c, removable), removable).0;
      || (d.pending.Some? && d.pending.value.optionId == option && ClientInvariant.Holds(c.storage, d.pending.value))
      || (d == c.(gate := d.gate, pending := d.pending, storage := d.storage)
          && (d.pending == c.pending || d.pending.None?))
  {
    hide FindReceipt, Resolve;
    ResolvedSelection(WithPending(c, removable), removable, option);
  }

  /** Whatever is selected after an action was chosen by it or was selected before it. */
  lemma SelectionStep(t: Truth, who: Id, c: Client, a: Action, option: Id)
    requires Coherent(t, who) && Safe(t, who, c) && Honest(t, a) && Chosen(Act(c, a).0, option)
    ensures Chooses(c, a, option) || Chosen(c, option)
  {
    hide Coherent, Safe, Applied, WithPending, Resolve, Submitted, Received, Advanced, Answered, Cleared,
      CanSelect;
    match a {
      case JoinDone(g, incoming, removable) =>
        if g == c.generation {
          var d := Counted(c);
          var e := Applied(d, incoming, d.requestSequence, removable);
          SafeDespite(t, who, c, d);
          TakenUpSelection(e, removable, option);
          if !TakesUp(c, a, option) {
            NotTakenUp(c, a, e, option);
            ReadSelectsNothing(t, who, d, incoming, d.requestSequence, removable, option);
          }
        }
      case SyncDone(g, incoming, removable, sequence) =>
        if g == c.generation {
          ResolvedSelection(Applied(c, incoming, sequence, removable), removable, option);
          ReadSelectsNothing(t, who, c, incoming, sequence, removable, option);
        }
      case RereadDone(g, incoming, removable) =>
        if g == c.generation {
          var d := Counted(c);
          SafeDespite(t, who, c, d);
          ReadSelectsNothing(t, who, d, incoming, d.requestSequence, removable, option);
        }
      case Submit(uuid, writable) => SubmitSendsSelection(c, uuid, writable);
      case AnswerDone(g, rid, receipt, removable) => AnswerIsShown(c, g, rid, receipt, removable);
      case AnswerFailed(g, rid, failure, removable) => RejectionSelects(c, a, option);
      case Receive(snapshot) => SnapshotIsTaken(c, snapshot);
      case Next(writable) => NextDismisses(c, writable);
      case _ =>
    }
  }

  lemma RejectionSelects(c: Client, a: Action, option: Id)
    requires a.AnswerFailed? && Chosen(Act(c, a).0, option)
    ensures Chosen(c, option) && QuestionOn(Act(c, a).0) == QuestionOn(c)
    ensures Act(c, a).0.pending == c.pending || Act(c, a).0.pending.None?
  {
    if Awaited(c, a.g, a.rid) {
      RejectionIsHandled(c, a.g, a.rid, a.failure, a.removable);
    } else {
      UnawaitedIsIgnored(c, a);
    }
  }

  /** A join that takes nothing up leaves the selection as its read left it. */
  lemma NotTakenUp(c: Client, a: Action, e: Client, option: Id)
    requires a.JoinDone? && a.g == c.generation && !TakesUp(c, a, option) && Chosen(Act(c, a).0, option)
    requires e == Applied(Counted(c), a.incoming, Counted(c).requestSequence, a.removable)
    ensures
      var d := Act(c, a).0;
      && d == e.(gate := d.gate, pending := d.pending, storage := d.storage)
      && (d.pending == e.pending || d.pending.None?)
  {
    hide Applied, WithPending, Resolve;
    TakenUpSelection(e, a.removable, option);
    AppliedStores(Counted(c), a.incoming, Counted(c).requestSequence, a.removable);
  }

  // ---------- The question it was selected for ----------

  /** A read that keeps a selection keeps its question, also while an intent is pending. */
  lemma ReadHolds(q: Quiz, events: seq<Event>, who: Id, c: Client, incoming: Learner, sequence: nat, removable: bool,
      option: Id, qid: Id)
    requires Lawful(q, events) && Safe(TruthOf(q, events, who), who, c) && incoming in TruthOf(q, events, who).views
    requires Holding(c, option, qid) && Chosen(Applied(c, incoming, sequence, removable), option)
    ensures Holding(Applied(c, incoming, sequence, removable), option, qid)
  {
    hide Lawful, Safe, Applied, HasReceipt, DismissedUpTo, LatestOpen, OfOneRoom, SaysState, TruthOf;
    var t := TruthOf(q, events, who);
    var e := Applied(c, incoming, sequence, removable);
    TruthIsCoherent(q, events, who);
    if Ignored(c, incoming, sequence) {
      IgnoredChangesNothing(c, incoming, sequence, removable);
    } else {
      ReadSelectsNothing(t, who, c, incoming, sequence, removable, option);
      ViewsAreOfOneRoom(t, who, incoming);
      SafeParts(t, who, c);
      ReadIsTaken(c, incoming, sequence, removable);
      ViewOwners(t, who, incoming);
      if e.pending.Some? {
        ReadKeepsQuestion(q, events, who, c, incoming, qid);
      }
    }
  }

  lemma ViewOwners(t: Truth, who: Id, v: Learner)
    requires Coherent(t, who) && v in t.views
    ensures v.participantId == who
  {
    hide SoundLearner;
  }

  /** A newer state of the epoch without a receipt for the question asked asks it still. */
  lemma ReadKeepsQuestion(q: Quiz, events: seq<Event>, who: Id, c: Client, incoming: Learner, qid: Id)
    requires Lawful(q, events) && Safe(TruthOf(q, events, who), who, c) && incoming in TruthOf(q, events, who).views
    requires QuestionOn(c) == Some(qid) && c.state.value.public.epoch == incoming.public.epoch
    requires c.privateVersion <= incoming.public.version && !HasReceipt(incoming.receipts, qid)
    ensures incoming.currentQuestion.Some? && incoming.currentQuestion.value.id == qid
  {
    hide Lawful, HasReceipt, SaysState, FindReceipt;
    var t := TruthOf(q, events, who);
    var o :| o in t.views && Private(c.state.value, o) && o.public.version == c.privateVersion;
    var i :| SaysState(q, events, who, i, o);
    var j :| SaysState(q, events, who, j, incoming);
    QuestionStays(q, events, who, i, j, o, incoming);
  }

  /** Whatever keeps a selection keeps its question. */
  lemma HoldingStep(q: Quiz, events: seq<Event>, who: Id, c: Client, a: Action, option: Id, qid: Id)
    requires Lawful(q, events) && Safe(TruthOf(q, events, who), who, c) && Honest(TruthOf(q, events, who), a)
    requires Holding(c, option, qid) && Chosen(Act(c, a).0, option) && !Chooses(c, a, option)
    ensures Holding(Act(c, a).0, option, qid)
  {
    hide Lawful, Safe, Applied, WithPending, Resolve, Submitted, Received, Advanced, Answered, Cleared,
      CanSelect, TruthOf;
    var t := TruthOf(q, events, who);
    match a {
      case JoinDone(g, incoming, removable) =>
        if g == c.generation {
          var d := Counted(c);
          var e := Applied(d, incoming, d.requestSequence, removable);
          SafeDespite(t, who, c, d);
          NotTakenUp(c, a, e, option);
          ReadHolds(q, events, who, d, incoming, d.requestSequence, removable, option, qid);
        }
      case SyncDone(g, incoming, removable, sequence) =>
        if g == c.generation {
          ResolvedSelection(Applied(c, incoming, sequence, removable), removable, option);
          ReadHolds(q, events, who, c, incoming, sequence, removable, option, qid);
        }
      case RereadDone(g, incoming, removable) =>
        if g == c.generation {
          var d := Counted(c);
          SafeDespite(t, who, c, d);
          ReadHolds(q, events, who, d, incoming, d.requestSequence, removable, option, qid);
        }
      case Submit(uuid, writable) => SubmitSendsSelection(c, uuid, writable);
      case AnswerDone(g, rid, receipt, removable) => AnswerIsShown(c, g, rid, receipt, removable);
      case AnswerFailed(g, rid, failure, removable) => RejectionSelects(c, a, option);
      case Receive(snapshot) => SnapshotIsTaken(c, snapshot);
      case Next(writable) => NextDismisses(c, writable);
      case _ =>
    }
  }

  // ---------- Over runs ----------

  /** Move m chose the option, and up to moment n it stayed selected, with no result shown and
      nothing chosen in between. */
  ghost predicate ChosenSince(ws: seq<World>, moves: seq<Move>, m: nat, n: nat, option: Id) {
    && m < n < |ws| && n <= |moves| && moves[m].User? && Chooses(ws[m].client, moves[m].action, option)
    && forall k: nat {:trigger ws[k]} :: m < k < n ==>
         Chosen(ws[k].client, option) && (moves[k].User? ==> !Chooses(ws[k].client, moves[k].action, option))
  }

  lemma MovedSafely(q: Quiz, ws: seq<World>, moves: seq<Move>, n: nat)
    requires Traced(q, ws, moves) && n < |moves|
    ensures WorldSafe(q, ws[n]) && Moved(q, ws[n], ws[n + 1], moves[n])
  {
    hide Run, WorldSafe, Moved;
    RunIsSafe(q, ws, n);
  }

  /** What is selected while no result is shown was chosen at some move, and has been selected
      ever since. */
  lemma {:induction false} SelectionWasChosen(q: Quiz, ws: seq<World>, moves: seq<Move>, n: nat, option: Id)
      returns (m: nat)
    requires Traced(q, ws, moves) && n < |ws| && Chosen(ws[n].client, option)
    ensures ChosenSince(ws, moves, m, n, option)
    decreases n
  {
    hide Lawful, Safe, Honest, Act, TruthOf, Chooses, OnePayload, Chosen, LiveQuiz;
    NothingSelected(q, ws, option);
    assert n > 0;
    var k := n - 1;
    MovedSafely(q, ws, moves, k);
    if moves[k].User? {
      TruthIsCoherent(q, ws[k].events, ws[k].who);
      SelectionStep(TruthOf(q, ws[k].events, ws[k].who), ws[k].who, ws[k].client, moves[k].action, option);
      if Chooses(ws[k].client, moves[k].action, option) {
        m := k;
      } else {
        m := SelectionWasChosen(q, ws, moves, k, option);
      }
    } else {
      m := SelectionWasChosen(q, ws, moves, k, option);
    }
  }

  lemma NothingSelected(q: Quiz, ws: seq<World>, option: Id)
    requires Run(q, ws)
    ensures !Chosen(ws[0].client, option)
  {
    hide LiveQuiz;
  }

  /** Selections are made where the page offers them: while an answer can be given. */
  ghost predicate OnOffer(ws: seq<World>, moves: seq<Move>) {
    forall k: nat {:trigger moves[k]} :: k < |moves| && k < |ws| && moves[k].User? && moves[k].action.Select? ==>
      CanSelect(ws[k].client)
  }

  lemma OfferedQuestion(c: Client, option: Id)
    requires CanSelect(c)
    ensures QuestionOn(c).Some? && Holding(Act(c, Select(Some(option))).0, option, QuestionOn(c).value)
  {
    hide FindRow;
  }

  lemma SelectChooses(c: Client, a: Action, option: Id)
    requires Chooses(c, a, option) && a.Select?
    ensures a == Select(Some(option))
  {
    hide Act;
  }

  lemma StepKeepsQuestion(q: Quiz, w: World, w': World, move: Move, option: Id, qid: Id)
    requires WorldSafe(q, w) && Moved(q, w, w', move) && Holding(w.client, option, qid) && Chosen(w'.client, option)
    requires move.User? ==> !Chooses(w.client, move.action, option)
    ensures Holding(w'.client, option, qid)
  {
    hide Lawful, Safe, Honest, Act, TruthOf, OnePayload, Chooses, Holding, Chosen;
    if move.User? {
      HoldingStep(q, w.events, w.who, w.client, move.action, option, qid);
    }
  }

  lemma SelectStarts(q: Quiz, w: World, w': World, option: Id)
    requires Moved(q, w, w', User(Select(Some(option)))) && CanSelect(w.client)
    ensures QuestionOn(w.client).Some? && Holding(w'.client, option, QuestionOn(w.client).value)
  {
    hide Act, CanSelect, Holding, QuestionOn, TruthOf;
    OfferedQuestion(w.client, option);
  }

  lemma {:induction false} QuestionIsKept(q: Quiz, ws: seq<World>, moves: seq<Move>, m: nat, k: nat, n: nat, option: Id)
    requires Traced(q, ws, moves) && ChosenSince(ws, moves, m, n, option) && Chosen(ws[n].client, option)
    requires m < k <= n && moves[m].action.Select? && CanSelect(ws[m].client)
    ensures QuestionOn(ws[m].client).Some? && Holding(ws[k].client, option, QuestionOn(ws[m].client).value)
    decreases k
  {
    hide Run, Moved, Chooses, CanSelect, Holding, Chosen, QuestionOn, WorldSafe;
    var j := k - 1;
    MovedSafely(q, ws, moves, j);
    if j == m {
      SelectChooses(ws[m].client, moves[m].action, option);
      SelectStarts(q, ws[m], ws[k], option);
    } else {
      QuestionIsKept(q, ws, moves, m, j, n, option);
      StepKeepsQuestion(q, ws[j], ws[k], moves[j], option, QuestionOn(ws[m].client).value);
    }
  }

  /** An intent that is sent for the first time carries the option that is selected at that
      moment: one that was chosen at some earlier move and stayed selected ever since, with no
      other choice in between. When the learner selected it, the question that the intent is
      for was on screen from that move on; otherwise it is the option of an intent that the
      page took up from storage. */
  lemma SubmittedWasSelected(q: Quiz, ws: seq<World>, moves: seq<Move>, n: nat) returns (m: nat)
    requires Traced(q, ws, moves) && OnOffer(ws, moves) && n < |moves|
    requires moves[n].User? && moves[n].action.Submit? && Act(ws[n].client, moves[n].action).1.Some?
    ensures ChosenSince(ws, moves, m, n, Act(ws[n].client, moves[n].action).1.value.optionId)
    ensures moves[m].action.Select? ==>
      forall k: nat {:trigger ws[k]} :: m <= k <= n ==>
        QuestionOn(ws[k].client) == Some(Act(ws[n].client, moves[n].action).1.value.questionId)
  {
    hide Run, Moved, Act, Chooses;
    var a := moves[n].action;
    SubmitSendsSelection(ws[n].client, a.uuid, a.writable);
    var i := Act(ws[n].client, a).1.value;
    m := SelectionWasChosen(q, ws, moves, n, i.optionId);
    if moves[m].action.Select? {
      forall k: nat | m < k <= n
        ensures QuestionOn(ws[m].client).Some? && Holding(ws[k].client, i.optionId, QuestionOn(ws[m].client).value)
      {
        QuestionIsKept(q, ws, moves, m, k, n, i.optionId);
      }
      assert Holding(ws[n].client, i.optionId, QuestionOn(ws[m].client).value);
    }
  }

  lemma NewIntentIsSent(c: Client, a: Action, i: Intent)
    requires a.Submit? && ClientInvariant.Holds(Act(c, a).0.storage, i) && !ClientInvariant.Holds(c.storage, i)
    ensures Chosen(c, i.optionId)
  {
    SubmitSendsSelection(c, a.uuid, a.writable);
  }

  /** Every intent that the browser ever stores or sends carries an option that the learner
      selected before: reloads and rejections add none. */
  lemma {:induction false} EveryIntentWasSelected(q: Quiz, ws: seq<World>, moves: seq<Move>, n: nat, i: Intent)
      returns (m: nat)
    requires Traced(q, ws, moves) && n < |ws| && Known(ws[n], i)
    ensures m < n && moves[m] == User(Select(Some(i.optionId)))
    decreases n
  {
    hide Lawful, Safe, Honest, Act, TruthOf, OnePayload, LiveQuiz, ClientInvariant.Holds;
    NothingKnown(q, ws, i);
    assert n > 0;
    var k := n - 1;
    MovedSafely(q, ws, moves, k);
    if Known(ws[k], i) {
      m := EveryIntentWasSelected(q, ws, moves, k, i);
    } else {
      var a, t := moves[k].action, TruthOf(q, ws[k].events, ws[k].who);
      TruthIsCoherent(q, ws[k].events, ws[k].who);
      KnownBefore(t, q, ws[k], ws[n], a, i);
      NewIntentIsSent(ws[k].client, a, i);
      var j := SelectionWasChosen(q, ws, moves, k, i.optionId);
      if moves[j].action == Select(Some(i.optionId)) {
        m := j;
      } else {
        var kept := Act(ws[j].client, moves[j].action).0.pending.value;
        m := EveryIntentWasSelected(q, ws, moves, j, kept);
      }
    }
  }

  lemma NothingKnown(q: Quiz, ws: seq<World>, i: Intent)
    requires Run(q, ws)
    ensures !Known(ws[0], i)
  {
    hide LiveQuiz;
  }
}
