/** What the client does with what the learner chooses and with what arrives: when it
    submits and what, which results it shows, what a reload keeps. */
module ClientPromises {
  import opened Domain
  import opened Store
  import opened Protocol
  import opened Client
  import opened ClientInvariant

  /** Without its stored intent, if the storage lets go of it. */
  function Released(c: Client, removable: bool): Storage {
    if removable then c.storage.(intents := c.storage.intents - {c.quizId}) else c.storage
  }

  // ---------- Submitting ----------

  /** Something is selected for the question of the state, nothing is under way or on show,
      the question's clock is held and the learner's own row is up to date. */
  predicate ReadyToSubmit(c: Client) {
    && c.selected.Some? && c.pending.None? && c.feedback.None? && c.gate == Usable
    && c.state.Some? && c.state.value.currentQuestion.Some?
    && c.clock == Some(Ticket(c.state.value.public.epoch, c.state.value.currentQuestion.value.id))
    && var me := FindRow(c.state.value.public.leaderboard, c.state.value.participantId);
    && me.Some? && me.value.answeredCount == c.state.value.answeredCount
  }

  /** Submit sends exactly when the client is ready and its storage can be written, and what
      it stores and sends is the selected option for the question on screen, under the new
      id, as the learner and for the quiz and epoch that are shown. */
  lemma SubmitSendsSelection(c: Client, uuid: Id, writable: bool)
    ensures
      var (d, sent) := Act(c, Submit(uuid, writable));
      && (sent.Some? <==> ReadyToSubmit(c) && writable)
      && (sent.None? ==> d == c)
      && (sent.Some? ==>
            var i := sent.value;
            && c.selected == Some(i.optionId) && i.submissionId == uuid
            && i.questionId == c.state.value.currentQuestion.value.id
            && i.quizId == c.quizId && i.participantId == c.state.value.participantId
            && i.epoch == c.state.value.public.epoch
            && d == c.(pending := Some(i),
                       storage := c.storage.(intents := c.storage.intents[c.quizId := Intact(i)])))
  {
    hide FindRow;
  }

  // ---------- Reading ----------

  /** The client has no state yet, or one of another epoch. */
  predicate StartsAnew(c: Client, incoming: Learner) {
    c.state.None? || c.state.value.public.epoch != incoming.public.epoch
  }

  /** A pending intent for this epoch and person. */
  predicate StillMine(c: Client, incoming: Learner) {
    && c.pending.Some? && c.pending.value.epoch == incoming.public.epoch
    && c.pending.value.participantId == incoming.participantId
  }

  predicate HasReceipt(rs: seq<Receipt>, qid: Id) {
    exists i :: 0 <= i < |rs| && rs[i].questionId == qid
  }

  /** The version up to which results were dismissed: by this page, or, when it starts anew,
      by an earlier page of the same tab, epoch and person. */
  function DismissedUpTo(c: Client, incoming: Learner): int {
    if !StartsAnew(c, incoming) then c.dismissedVersion
    else if c.quizId in c.storage.marks && c.storage.marks[c.quizId].Intact?
      && c.storage.marks[c.quizId].value.epoch == incoming.public.epoch
      && c.storage.marks[c.quizId].value.participantId == incoming.participantId
      && c.storage.marks[c.quizId].value.version >= 0
    then c.storage.marks[c.quizId].value.version
    else 0
  }

  /** The state after a read that is taken: everything private is what was read, and of two
      standings of one epoch the newer are shown. */
  ghost predicate StateTaken(c: Client, incoming: Learner, d: Client) {
    && d.state.Some? && d.privateVersion == incoming.public.version
    && d.state.value == incoming.(public := d.state.value.public)
    && (if !StartsAnew(c, incoming) && c.state.value.public.version > incoming.public.version
        then d.state.value.public == c.state.value.public.(quizId := incoming.public.quizId)
        else d.state.value.public == incoming.public)
  }

  /** The intent after it: kept while it is of this epoch and person and has no receipt. */
  ghost predicate IntentTaken(c: Client, incoming: Learner, d: Client) {
    d.pending ==
      if StillMine(c, incoming) && !HasReceipt(incoming.receipts, c.pending.value.questionId) then c.pending else None
  }

  /** What is on show before the result of a read is chosen. */
  function ShownBefore(c: Client, incoming: Learner): Option<Receipt> {
    if StartsAnew(c, incoming) then None else c.feedback
  }

  predicate Settles(c: Client, incoming: Learner) {
    StillMine(c, incoming) && HasReceipt(incoming.receipts, c.pending.value.questionId)
  }

  /** The latest receipt, unless it was dismissed. */
  function LatestOpen(rs: seq<Receipt>, dismissed: int): Option<Receipt> {
    if rs != [] && rs[|rs| - 1].acceptedVersion > dismissed then Some(rs[|rs| - 1]) else None
  }

  /** The result after it: the receipt of the intent that it settles; or what was shown
      before; or, when nothing is pending, the latest receipt unless it was dismissed. */
  ghost predicate ResultTaken(c: Client, incoming: Learner, d: Client) {
    && d.dismissedVersion == DismissedUpTo(c, incoming)
    && if Settles(c, incoming) then
         && d.feedback.Some? && d.feedback.value in incoming.receipts
         && d.feedback.value.questionId == c.pending.value.questionId
       else if ShownBefore(c, incoming).Some? || d.pending.Some? then d.feedback == ShownBefore(c, incoming)
       else d.feedback == LatestOpen(incoming.receipts, DismissedUpTo(c, incoming))
  }

  /** The selection after it: that of a result that it shows; none in a new epoch or for a new
      question; otherwise what it was. */
  ghost predicate SelectionTaken(c: Client, incoming: Learner, d: Client) {
    var before := ShownBefore(c, incoming);
    d.selected ==
      if d.feedback.Some? && before.None? then Some(d.feedback.value.selectedOptionId)
      else if StartsAnew(c, incoming) then None
      else if before.None? && d.pending.None? && AskingId(d) != AskingId(c) then None
      else c.selected
  }

  ghost predicate OfOneRoom(v: Learner) {
    forall r :: r in v.receipts ==> r.quizId == v.public.quizId && r.epoch == v.public.epoch
  }

  lemma FoundReceipt(rs: seq<Receipt>, qid: Id)
    ensures FindReceipt(rs, qid).Some? <==> HasReceipt(rs, qid)
  {
    if FindReceipt(rs, qid).Some? {
      var i :| 0 <= i < |rs| && rs[i] == FindReceipt(rs, qid).value;
    }
  }

  /** The client once the state is taken and before its receipts are looked at. */
  lemma TurnIsTaken(c: Client, incoming: Learner, sequence: nat, removable: bool)
    requires incoming.public.quizId == c.quizId
    ensures
      var e := Turned(Took(c, incoming, sequence, removable), c.state);
      && StateTaken(c, incoming, e) && e.pending == (if StillMine(c, incoming) then c.pending else None)
      && e.feedback == ShownBefore(c, incoming) && e.dismissedVersion == DismissedUpTo(c, incoming)
      && e.selected == (if StartsAnew(c, incoming) then None else c.selected)
      && e.appliedSequence == sequence && e.quizId == c.quizId
      && e == c.(state := e.state, privateVersion := e.privateVersion, appliedSequence := e.appliedSequence,
                 pending := e.pending, feedback := e.feedback, selected := e.selected,
                 dismissedVersion := e.dismissedVersion, storage := e.storage)
  {
  }

  /** And once the receipts are. */
  lemma ReceiptsAreTaken(e: Client, rs: seq<Receipt>, removable: bool, before: Option<Id>)
    requires e.state.Some? && (e.pending.Some? ==> e.feedback.None?)
    requires forall r :: r in rs ==> r.quizId == e.quizId && r.epoch == e.state.value.public.epoch
    ensures
      var d := Latest(Settled(e, rs, removable), rs, before);
      var settles := e.pending.Some? && HasReceipt(rs, e.pending.value.questionId);
      && d == e.(pending := d.pending, feedback := d.feedback, selected := d.selected, storage := d.storage)
      && d.pending == (if settles then None else e.pending)
      && (if settles then
            d.feedback.Some? && d.feedback.value in rs && d.feedback.value.questionId == e.pending.value.questionId
          else if e.feedback.Some? || e.pending.Some? then d.feedback == e.feedback
          else d.feedback == LatestOpen(rs, e.dismissedVersion))
      && d.selected ==
           (if d.feedback.Some? && e.feedback.None? then Some(d.feedback.value.selectedOptionId)
            else if e.feedback.None? && d.pending.None? && AskingId(d) != before then None
            else e.selected)
  {
    hide HasReceipt;
    if e.pending.Some? {
      FoundReceipt(rs, e.pending.value.questionId);
    }
  }

  /** For another quiz, asked for before a read that was taken, or older than the private
      state of its epoch. */
  predicate Outdated(c: Client, incoming: Learner, sequence: nat) {
    || incoming.public.quizId != c.quizId || sequence < c.appliedSequence
    || (!StartsAnew(c, incoming) && incoming.public.version < c.privateVersion)
  }

  /** A read that is outdated changes nothing; of any other this is everything it changes:
      state, intent, result and selection. */
  lemma ReadIsTaken(c: Client, incoming: Learner, sequence: nat, removable: bool)
    requires OfOneRoom(incoming) && (c.pending.Some? ==> c.feedback.None?)
    ensures Outdated(c, incoming, sequence) ==> Applied(c, incoming, sequence, removable) == c
    ensures Outdated(c, incoming, sequence) <==> Ignored(c, incoming, sequence)
    ensures !Outdated(c, incoming, sequence) ==>
      var d := Applied(c, incoming, sequence, removable);
      && StateTaken(c, incoming, d) && IntentTaken(c, incoming, d) && ResultTaken(c, incoming, d)
      && SelectionTaken(c, incoming, d) && d.appliedSequence == sequence
      && d.gate == c.gate && d.clock == c.clock && d.quizId == c.quizId && d.generation == c.generation
  {
    hide HasReceipt, Turned, Took, Settled, Latest, AskingId, DismissedUpTo;
    if !Outdated(c, incoming, sequence) {
      TookState(c, incoming, sequence, removable);
      var e := Turned(Took(c, incoming, sequence, removable), c.state);
      TurnIsTaken(c, incoming, sequence, removable);
      ReceiptsAreTaken(e, incoming.receipts, removable, AskingId(c));
    }
  }

  /** A synchronization, and the read after a refused clock, do no more than take their state;
      of another life of the page they do nothing. */
  lemma ReadsOnlyTake(t: Truth, who: Id, c: Client, g: nat, v: Learner, removable: bool, sequence: nat)
    requires Coherent(t, who) && Safe(t, who, c) && v in t.views
    ensures Act(c, SyncDone(g, v, removable, sequence)).0
      == if g == c.generation then Applied(c, v, sequence, removable) else c
    ensures Act(c, RereadDone(g, v, removable)).0
      == if g == c.generation then Applied(Counted(c), v, c.requestSequence + 1, removable) else c
  {
    hide Applied, FindReceipt, Genuine, Coherent;
    AppliedSafe(t, who, c, v, sequence, removable);
  }

  // ---------- Pages ----------

  /** A join, a restarted session and a reload leave nothing of the page but its storage, and
      responses to earlier requests find it in another life; a restarted session also lets
      go of the stored intent of its quiz, so it is never sent as someone else's. */
  lemma PagesForget(c: Client, quizId: Id, g: nat, removable: bool)
    ensures Act(c, JoinBegin(quizId)) == (Loaded(c.storage).(quizId := quizId, generation := c.generation + 1), None)
    ensures Act(c, Reload) == (Loaded(c.storage), None)
    ensures Act(c, Restarted(g, removable)) ==
      (if g != c.generation then c
       else Loaded(Released(c, removable)).(quizId := c.quizId, generation := c.generation + 1), None)
    ensures Act(c, Leave) ==
      (c.(state := None, gate := Usable, generation := c.generation + 1, requestSequence := 0, appliedSequence := 0),
       None)
    ensures Act(c, Stop) ==
      (c.(generation := c.generation + 1, requestSequence := 0, appliedSequence := 0), None)
  {
  }

  // ---------- Answers that come back ----------

  /** The response is to the intent that is pending, in the same life of the page. */
  predicate Awaited(c: Client, g: nat, rid: Id) {
    g == c.generation && c.pending.Some? && c.pending.value.submissionId == rid
  }

  /** The receipt is of the quiz and epoch shown, and of the pending question. */
  predicate Fits(c: Client, r: Receipt) {
    && c.state.Some? && c.pending.Some? && r.quizId == c.quizId && r.epoch == c.state.value.public.epoch
    && r.questionId == c.pending.value.questionId
  }

  /** The receipt is on show as the result, and the intent is settled. */
  function Result(c: Client, r: Receipt, removable: bool): Client {
    c.(feedback := Some(r), selected := Some(r.selectedOptionId), pending := None, storage := Released(c, removable))
  }

  /** An answer response: a fitting receipt is shown at once and settles the intent, and a
      synchronization begins; anything else changes nothing. */
  lemma AnswerIsShown(c: Client, g: nat, rid: Id, r: Receipt, removable: bool)
    ensures
      Act(c, AnswerDone(g, rid, r, removable)) ==
        (if Awaited(c, g, rid) && Fits(c, r)
         then Result(c, r, removable).(requestSequence := c.requestSequence + 1) else c, None)
  {
  }

  /** A failed answer. Of an answer made elsewhere the receipt is shown; a lost session, epoch
      or membership gates the client and keeps the intent; any other definite rejection
      releases the intent; a transient failure changes nothing. */
  lemma RejectionIsHandled(c: Client, g: nat, rid: Id, f: Failure, removable: bool)
    requires Awaited(c, g, rid)
    ensures Act(c, AnswerFailed(g, rid, f, removable)).1 == None
    ensures
      var d := Act(c, AnswerFailed(g, rid, f, removable)).0;
      && (f.Taken? ==>
            d == (if Fits(c, f.receipt) then Result(c, f.receipt, removable) else c).(
                   requestSequence := c.requestSequence + 1))
      && (f.Unauthenticated? ==> d == c.(gate := Expired))
      && (f.EpochGone? || f.NotAMember? ==> d == c.(gate := ResetNeeded))
      && (f.ClockRefused? || f.Definite? ==> d == c.(pending := None, storage := Released(c, removable)))
      && (f.Transient? ==> d == c)
  {
  }

  /** A response that is not awaited changes nothing: not to another intent, not to this one
      in another life of the page. */
  lemma UnawaitedIsIgnored(c: Client, a: Action)
    requires a.AnswerDone? || a.AnswerFailed?
    requires !Awaited(c, a.g, a.rid)
    ensures Act(c, a) == (c, None)
  {
  }

  /** After a state read in the same life of the page, whatever is pending has just been put
      on the wire: no intent waits for anything but a response. */
  lemma SyncSendsPending(t: Truth, who: Id, c: Client, a: Action)
    requires Coherent(t, who) && Safe(t, who, c) && Honest(t, a)
    requires (a.SyncDone? || a.JoinDone?) && a.g == c.generation && Act(c, a).0.state.Some?
    ensures Act(c, a).1 == Act(c, a).0.pending
  {
    hide Coherent, Applied, WithPending, FindReceipt, Genuine;
    ActKeepsSafe(t, who, c, a);
  }

  // ---------- The socket ----------

  /** The learner's own row shows more answers than the private state knows of. */
  predicate AnsweredElsewhere(p: Public, v: Learner) {
    var me := FindRow(p.leaderboard, v.participantId);
    me.Some? && me.value.answeredCount > v.answeredCount
  }

  /** A socket snapshot. Of the epoch shown and not older, it replaces the standings and clears
      the gate; of another epoch, or with more answers of the learner than are known, it has
      the state read again; anything else changes nothing. */
  lemma SnapshotIsTaken(c: Client, p: Public)
    ensures
      var d := Act(c, Receive(p)).0;
      if c.state.None? || p.quizId != c.quizId then d == c
      else if p.epoch != c.state.value.public.epoch then d == c.(requestSequence := c.requestSequence + 1)
      else if p.version < c.state.value.public.version then d == c
      else
        && d.state == (if p.version > c.state.value.public.version then Some(c.state.value.(public := p)) else c.state)
        && d.gate == Usable
        && d.requestSequence == c.requestSequence + (if AnsweredElsewhere(p, c.state.value) then 1 else 0)
        && d == c.(state := d.state, gate := Usable, requestSequence := d.requestSequence)
  {
    hide FindRow;
  }

  // ---------- Clocks ----------

  /** The question a clock was asked for is still the one asked. */
  predicate Asks(c: Client, g: nat, asked: Ticket) {
    && g == c.generation && c.state.Some? && c.feedback.None? && c.state.value.currentQuestion.Some?
    && asked == Ticket(c.state.value.public.epoch, c.state.value.currentQuestion.value.id)
  }

  /** A lost session expires the client, a lost epoch or membership needs a new join; nothing
      else gates it. */
  function GateFor(f: Failure): Gate {
    if f.Unauthenticated? then Expired else if f.EpochGone? || f.NotAMember? then ResetNeeded else Usable
  }

  /** A clock is taken exactly for the question still asked; a wrong one is a failure that gates
      nothing. A failed request gates the client as its cause says, but a refusal because the
      question was answered gates nothing: the state is read again. */
  lemma ClockIsTaken(c: Client, g: nat, asked: Ticket, given: Ticket, f: Failure)
    ensures Act(c, StartDone(g, asked, given)).0 ==
      if !Asks(c, g, asked) then c else if given == asked then c.(clock := Some(asked)) else c.(gate := Usable)
    ensures Act(c, StartFailed(g, asked, f)).0 ==
      if !Asks(c, g, asked) || f.ClockRefused? then c
      else c.(gate := GateFor(f))
    ensures Act(c, Failing(g, f)).0 ==
      if g != c.generation then c
      else c.(gate := GateFor(f))
  {
  }

  // ---------- Dismissing ----------

  /** A result can be dismissed once the private state that is shown has its receipt. */
  predicate Dismissible(c: Client) {
    && c.feedback.Some? && c.pending.None? && c.gate == Usable && c.state.Some?
    && c.feedback.value.acceptedVersion <= c.privateVersion
    && HasReceipt(c.state.value.receipts, c.feedback.value.questionId)
  }

  /** Next dismisses a result exactly when it can be dismissed: results up to its version are
      marked as seen, for this epoch and person, and the latest receipt shows if it is newer. */
  lemma NextDismisses(c: Client, writable: bool)
    ensures !Dismissible(c) ==> Act(c, Next(writable)).0 == c
    ensures Dismissible(c) ==>
      var d, v, rs := Act(c, Next(writable)).0, c.feedback.value.acceptedVersion, c.state.value.receipts;
      && d.dismissedVersion == v && d.feedback == LatestOpen(rs, v)
      && d.selected == (if d.feedback.Some? then Some(d.feedback.value.selectedOptionId) else None)
      && d.storage.intents == c.storage.intents
      && d.storage.marks == (if writable
           then c.storage.marks[c.quizId := Intact(Mark(c.state.value.public.epoch, c.state.value.participantId, v))]
           else c.storage.marks)
      && d == c.(dismissedVersion := v, feedback := d.feedback, selected := d.selected, storage := d.storage)
  {
    hide HasReceipt, FindReceipt;
    if c.feedback.Some? && c.state.Some? {
      FoundReceipt(c.state.value.receipts, c.feedback.value.questionId);
    }
  }

  // ---------- Reloads ----------

  /** The page is loaded again and joins the quiz; the response is the private state v. */
  function Rejoined(c: Client, quizId: Id, v: Learner, removable: bool): (Client, Option<Intent>) {
    var d := Act(Act(c, Reload).0, JoinBegin(quizId)).0;
    Act(d, JoinDone(d.generation, v, removable))
  }

  /** The stored intent belongs to this state and still has no receipt. */
  predicate Resumable(s: Storage, v: Learner) {
    && v.public.quizId in s.intents && s.intents[v.public.quizId].Intact?
    && var i := s.intents[v.public.quizId].value;
    && i.quizId == v.public.quizId && i.participantId == v.participantId && i.epoch == v.public.epoch
    && !HasReceipt(v.receipts, i.questionId)
  }

  /** After a reload a stored intent is taken up, with its option selected, and sent again
      exactly when it belongs to the state that was read and has no receipt there; then no
      result covers it. Otherwise nothing is pending. Whatever the storage holds, also text
      that does not parse, gates nothing. */
  lemma IntentSurvivesReload(c: Client, v: Learner, removable: bool)
    requires OfOneRoom(v)
    ensures
      var (d, sent) := Rejoined(c, v.public.quizId, v, removable);
      && sent == d.pending && d.gate == Usable && d.state == Some(v)
      && (sent.Some? <==> Resumable(c.storage, v))
      && (sent.Some? ==>
            && c.storage.intents[v.public.quizId] == Intact(sent.value) && d.selected == Some(sent.value.optionId)
            && d.feedback.None?)
  {
    hide HasReceipt, Applied, OfOneRoom;
    var e := Act(Act(c, Reload).0, JoinBegin(v.public.quizId)).0;
    ReadIsTaken(Counted(e), v, 1, removable);
    var f := Applied(Counted(e), v, 1, removable);
    AppliedStorage(Counted(e), v, 1, removable);
    TakenUp(f, v, removable);
  }

  lemma AppliedStorage(c: Client, incoming: Learner, sequence: nat, removable: bool)
    requires c.pending.None?
    ensures Applied(c, incoming, sequence, removable).storage == c.storage
  {
  }

  /** What loading and resolving the stored intent comes to. */
  lemma TakenUp(c: Client, v: Learner, removable: bool)
    requires c.state.Some? && c.pending.None? && c.quizId == v.public.quizId && OfOneRoom(v)
    requires c.state.value.participantId == v.participantId && c.state.value.public.epoch == v.public.epoch
    requires c.state.value.receipts == v.receipts && c.gate == Usable
    ensures
      var (d, sent) := Resolve(WithPending(c, removable), removable);
      && sent == d.pending && d.gate == Usable && d.state == c.state
      && (sent.Some? <==> Resumable(c.storage, v))
      && (sent.Some? ==>
            && c.storage.intents[v.public.quizId] == Intact(sent.value) && d.selected == Some(sent.value.optionId)
            && d.feedback.None?)
  {
    hide HasReceipt;
    if c.quizId in c.storage.intents && c.storage.intents[c.quizId].Intact? {
      FoundReceipt(v.receipts, c.storage.intents[c.quizId].value.questionId);
    }
  }

  /** A dismissed result stays away: after the learner has dismissed it and the page is loaded
      again, a state of the same epoch and person without newer receipts shows no result. */
  lemma DismissedStaysAway(c: Client, v: Learner, removable: bool)
    requires Dismissible(c) && OfOneRoom(v) && c.quizId == v.public.quizId && c.feedback.value.acceptedVersion >= 0
    requires v.public.epoch == c.state.value.public.epoch && v.participantId == c.state.value.participantId
    requires c.quizId !in c.storage.intents
    ensures
      var d := Rejoined(Act(c, Next(true)).0, v.public.quizId, v, removable).0;
      d.feedback == LatestOpen(v.receipts, c.feedback.value.acceptedVersion)
  {
    hide HasReceipt, Applied, OfOneRoom, Dismissible, Advanced;
    NextDismisses(c, true);
    var n := Act(c, Next(true)).0;
    var e := Act(Act(n, Reload).0, JoinBegin(v.public.quizId)).0;
    ReadIsTaken(Counted(e), v, 1, removable);
    AppliedStorage(Counted(e), v, 1, removable);
  }
}
