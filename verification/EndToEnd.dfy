/** Client, network and server together. The server serves any commands of anyone; the
    network may lose, delay, repeat and reorder everything: a response the client takes
    is something the server said at some moment of its run, whenever that was. Pages
    reload, sessions restart, rooms are reset. */
module EndToEnd {
  import opened Domain
  import opened Room
  import opened RoomInvariant
  import opened RoomSteps
  import opened RoomRuns
  import opened RoomTiming
  import opened Store
  import opened Protocol
  import opened Acceptance
  import opened Client
  import opened ClientInvariant
  import Attempt
  import opened Standings

  function Blank(): State {
    State(None, map[], map[], map[], map[], map[], map[])
  }

  /** The room after the first k events of the server's run. */
  ghost function RoomAt(q: Quiz, events: seq<Event>, k: nat): State
    requires k <= |events|
  {
    Before(q, Blank(), events, k)
  }

  // ---------- What the server has said ----------

  ghost predicate SaysState(q: Quiz, events: seq<Event>, who: Id, k: nat, v: Learner) {
    && k <= |events| && RoomAt(q, events, k).meta.Some?
    && var s := RoomAt(q, events, k);
    && who in s.participants && Assembles(q, s, s.meta.value, who) && v == View(q, s, who)
  }

  ghost predicate SaysPublic(q: Quiz, events: seq<Event>, k: nat, p: Public) {
    && k <= |events|
    && var s := RoomAt(q, events, k);
    && Consistent(s) && p == PublicOf(q, s)
  }

  ghost predicate SaysReceipt(q: Quiz, events: seq<Event>, who: Id, k: nat, r: Receipt) {
    && k <= |events| && RoomAt(q, events, k).meta.Some?
    && var s := RoomAt(q, events, k);
    && (who, r.questionId) in s.answers && r == Attempt.Teach(q, s.answers[(who, r.questionId)])
    && r.epoch == s.meta.value.epoch
  }

  ghost predicate StateSaid(q: Quiz, events: seq<Event>, who: Id, v: Learner) {
    exists k :: SaysState(q, events, who, k, v)
  }

  ghost predicate PublicSaid(q: Quiz, events: seq<Event>, p: Public) {
    exists k :: SaysPublic(q, events, k, p)
  }

  ghost predicate ReceiptSaid(q: Quiz, events: seq<Event>, who: Id, r: Receipt) {
    exists k :: SaysReceipt(q, events, who, k, r)
  }

  ghost function TruthOf(q: Quiz, events: seq<Event>, who: Id): Truth {
    Truth(iset v: Learner | StateSaid(q, events, who, v),
          iset p: Public | PublicSaid(q, events, p),
          iset r: Receipt | ReceiptSaid(q, events, who, r))
  }

  ghost predicate Lawful(q: Quiz, events: seq<Event>) {
    LiveQuiz(q) && Proper(q, events) && FreshEpochs(Blank(), events)
  }

  lemma RoomHasInv(q: Quiz, events: seq<Event>, k: nat)
    requires Lawful(q, events) && k <= |events| && RoomAt(q, events, k).meta.Some?
    ensures Inv(q, q.contentVersion, RoomAt(q, events, k))
  {
    hide LiveQuiz, Proper, FreshEpochs, Before, Inv;
    RunKeepsLegal(q, Blank(), events, k);
  }

  lemma ShownIsStored(q: Quiz, m: Meta, s: State, who: Id, v: Learner, r: Receipt)
    requires LiveQuiz(q) && s.meta == Some(m) && Inv(q, q.contentVersion, s) && ViewMade(q, s, who, v)
      && r in v.receipts
    ensures (who, r.questionId) in s.answers && r == Attempt.Teach(q, s.answers[(who, r.questionId)])
    ensures r.epoch == m.epoch && r.epoch == v.public.epoch
  {
    hide LiveQuiz, Inv, SoundReceipt;
    AllHeld(q, m, s, who, v);
    var k :| 0 <= k < |v.receipts| && v.receipts[k] == r;
    ViewReceipt(q, m, s, who, v, k);
  }

  /** What the server says hangs together. */
  lemma TruthIsCoherent(q: Quiz, events: seq<Event>, who: Id)
    requires Lawful(q, events)
    ensures Coherent(TruthOf(q, events, who), who)
  {
    hide LiveQuiz, Proper, FreshEpochs, Inv, RoomAt, SoundLearner, View, ViewMade, Assembles, PublicOf;
    var t := TruthOf(q, events, who);
    forall v | v in t.views
      ensures v.participantId == who && v.public in t.publics && SoundLearner(v)
      ensures forall r :: r in v.receipts ==> r in t.receipts && r.epoch == v.public.epoch
    {
      var k :| SaysState(q, events, who, k, v);
      var s := RoomAt(q, events, k);
      var m := s.meta.value;
      RoomHasInv(q, events, k);
      ViewParts(q, m, s, who);
      SnapshotIsAccepted(q, m, s, who);
      ViewPublic(q, s, who, v);
      ViewOwner(q, s, who, v);
      assert SaysPublic(q, events, k, v.public);
      forall r | r in v.receipts
        ensures r in t.receipts && r.epoch == v.public.epoch
      {
        ShownIsStored(q, m, s, who, v, r);
        assert SaysReceipt(q, events, who, k, r);
      }
    }
  }

  lemma ViewOwner(q: Quiz, s: State, who: Id, v: Learner)
    requires ViewMade(q, s, who, v)
    ensures v.participantId == who
  {
  }

  lemma SaidStays(q: Quiz, events: seq<Event>, e: Event, k: nat)
    requires k <= |events|
    ensures RoomAt(q, events + [e], k) == RoomAt(q, events, k)
  {
    assert (events + [e])[..k] == events[..k];
  }

  /** What was said stays said. */
  lemma TruthGrows(q: Quiz, events: seq<Event>, e: Event, who: Id)
    ensures TruthOf(q, events, who).views <= TruthOf(q, events + [e], who).views
    ensures TruthOf(q, events, who).publics <= TruthOf(q, events + [e], who).publics
    ensures TruthOf(q, events, who).receipts <= TruthOf(q, events + [e], who).receipts
  {
    hide RoomAt, View, Assembles, PublicOf;
    var t, t' := TruthOf(q, events, who), TruthOf(q, events + [e], who);
    forall v | v in t.views ensures v in t'.views {
      var k :| SaysState(q, events, who, k, v);
      SaidStays(q, events, e, k);
      assert SaysState(q, events + [e], who, k, v);
    }
    forall p | p in t.publics ensures p in t'.publics {
      var k :| SaysPublic(q, events, k, p);
      SaidStays(q, events, e, k);
      assert SaysPublic(q, events + [e], k, p);
    }
    forall r | r in t.receipts ensures r in t'.receipts {
      var k :| SaysReceipt(q, events, who, k, r);
      SaidStays(q, events, e, k);
      assert SaysReceipt(q, events + [e], who, k, r);
    }
  }

  // ---------- Responses are what the server has said ----------

  /** A reply that carries a receipt. */
  predicate Brings(reply: Reply, r: Receipt) {
    reply == Scored(true, r) || reply == Scored(false, r) || reply == AlreadyAnswered(r)
  }

  predicate StoredFor(s: State, pid: Id, r: Receipt) {
    (pid, r.questionId) in s.answers && s.answers[(pid, r.questionId)] == r
  }

  ghost predicate AnswersWith(s: State, m: Meta, cmd: Command, now: int, r: Receipt) {
    && cmd.Answer? && (cmd.pid in s.participants ==> cmd.pid in s.attempts && cmd.pid in s.scores)
    && Brings(AnswerStep(s, m, cmd, now).1, r)
  }

  lemma AnswerReceipt(q: Quiz, m: Meta, s: State, cmd: Command, now: int, r: Receipt)
    requires AnswersWith(s, m, cmd, now, r)
    requires LiveQuiz(q) && s.meta == Some(m) && Inv(q, q.contentVersion, s) && Issued(q, cmd)
    ensures StoredFor(AnswerStep(s, m, cmd, now).0, cmd.pid, r)
  {
    hide Inv, LiveQuiz, AnswerStep, Recorded, ReceiptOf, Issued;
    if Commits(s, m, cmd) {
      AnswerCommits(q, m, s, cmd, now);
      RecordedAnswers(m, s, cmd.pid, ReceiptOf(s, m, cmd, now));
    } else {
      OldReceipt(s, m, cmd, now, r);
      MirrorOf(q, s);
      KeysOf(q, m, s);
    }
  }

  lemma OldReceipt(s: State, m: Meta, cmd: Command, now: int, r: Receipt)
    requires AnswersWith(s, m, cmd, now, r) && !Commits(s, m, cmd)
    ensures AnswerStep(s, m, cmd, now).0 == s
    ensures || ((cmd.pid, cmd.rid) in s.requests && r == s.requests[(cmd.pid, cmd.rid)])
            || ((cmd.pid, cmd.qid) in s.answers && r == s.answers[(cmd.pid, cmd.qid)])
  {
    hide Recorded, ReceiptFor, Resolved;
  }

  lemma MirrorOf(q: Quiz, s: State)
    requires Inv(q, q.contentVersion, s)
    ensures Mirrored(s)
  {
    hide Mirrored;
  }

  /** Whatever receipt an answer request brings back, accepted, replayed or as the reason
      of a refusal, is one the server holds for this participant. */
  lemma AnswerReplyIsSaid(q: Quiz, events: seq<Event>, k: nat, r: Receipt)
    requires Lawful(q, events) && k < |events| && events[k].cmd.Answer?
    requires Brings(ReplyTo(q, Blank(), events, k), r)
    ensures SaysReceipt(q, events, events[k].cmd.pid, k + 1, Attempt.Teach(q, r))
  {
    hide LiveQuiz, Proper, FreshEpochs, Inv, Step, Before, Served, AnswerStep, Issued;
    var cmd, s := events[k].cmd, RoomAt(q, events, k);
    ProperAt(q, events, k);
    BeforeNext(q, Blank(), events, k);
    if s.meta.None? {
      AbsentRoom(q, s, cmd, events[k].now);
    } else {
      var m := s.meta.value;
      RoomHasInv(q, events, k);
      MembersHavePlans(q, s, cmd.pid);
      AnswerReply(q, m, s, cmd, events[k].now);
      AnswerReceipt(q, m, s, cmd, events[k].now, r);
      AnswerOutcome(q, m, s, cmd, events[k].now);
      RoomStaysOpen(s, m, cmd, events[k].now);
      RoomHasInv(q, events, k + 1);
      EpochOf(q, RoomAt(q, events, k + 1), (cmd.pid, r.questionId));
    }
  }

  lemma ProperAt(q: Quiz, events: seq<Event>, k: nat)
    requires Proper(q, events) && k < |events|
    ensures Issued(q, events[k].cmd) && Ticking(events[k].now)
  {
    hide Issued;
    assert events[k] in events;
  }

  lemma RoomStaysOpen(s: State, m: Meta, cmd: Command, now: int)
    requires cmd.Answer? && s.meta == Some(m)
    requires cmd.pid in s.participants ==> cmd.pid in s.attempts && cmd.pid in s.scores
    ensures AnswerStep(s, m, cmd, now).0.meta.Some?
  {
    hide ReceiptFor, Resolved, FirstOpen;
  }

  lemma EpochOf(q: Quiz, s: State, f: Field)
    requires s.meta.Some? && Inv(q, q.contentVersion, s) && f in s.answers
    ensures s.answers[f].epoch == s.meta.value.epoch && s.answers[f].questionId == f.1
  {
    hide PlansFit, AllProgress, Mirrored, OneVersionEach, MetaFits, GradedWell;
    assert ReceiptFits(q, s.meta.value, s, f);
  }

  /** And the state a read brings back is the view of the room at that moment. */
  lemma ReadReplyIsSaid(q: Quiz, events: seq<Event>, k: nat, who: Id)
    requires Lawful(q, events) && k <= |events|
    requires RoomAt(q, events, k).meta.Some? && who in RoomAt(q, events, k).participants
    ensures
      var s := RoomAt(q, events, k);
      && Assembles(q, s, s.meta.value, who) && SaysState(q, events, who, k, View(q, s, who))
      && Step(s, q.contentVersion, Snapshot(Some(who)), 1).1 == DumpFor(s, s.meta.value, who)
  {
    hide LiveQuiz, Proper, FreshEpochs, Inv, Before, View, Step, DumpFor;
    var s := RoomAt(q, events, k);
    RoomHasInv(q, events, k);
    SnapshotAssembles(q, s.meta.value, s, who);
    DumpReply(q, s.meta.value, s, Snapshot(Some(who)), 1);
  }

  // ---------- The system ----------

  /** `who` is the identity of the browser's session; `sent` lists the intents put on
      the wire, oldest first. */
  datatype World = World(events: seq<Event>, who: Id, client: Client, sent: seq<Intent>)

  /** An intent the browser has ever stored or sent and not forgotten. */
  ghost predicate Known(w: World, i: Intent) {
    i in w.sent || Holds(w.client.storage, i)
  }

  predicate Renewing(c: Client, a: Action) {
    a.JoinBegin? || a.Reload? || (a.Restarted? && a.g == c.generation)
  }

  ghost predicate ServerMoves(q: Quiz, w: World, w': World) {
    exists e: Event :: w' == w.(events := w.events + [e]) && Lawful(q, w.events + [e])
  }

  ghost predicate ClientMoves(q: Quiz, w: World, w': World, a: Action) {
    && Honest(TruthOf(q, w.events, w.who), a)
    && (a.Submit? ==> forall i :: Known(w, i) ==> i.submissionId != a.uuid)
    && w'.events == w.events && w'.client == Act(w.client, a).0
    && w'.sent == w.sent + (if Act(w.client, a).1.Some? then [Act(w.client, a).1.value] else [])
    && (w'.who == w.who || Renewing(w.client, a))
  }

  ghost predicate Next(q: Quiz, w: World, w': World) {
    ServerMoves(q, w, w') || exists a: Action :: ClientMoves(q, w, w', a)
  }

  ghost predicate Run(q: Quiz, ws: seq<World>) {
    && |ws| > 0 && LiveQuiz(q)
    && ws[0].events == [] && ws[0].sent == [] && ws[0].client == Loaded(Storage(map[], map[]))
    && forall i {:trigger Next(q, ws[i], ws[i + 1])} :: 0 <= i < |ws| - 1 ==> Next(q, ws[i], ws[i + 1])
  }

  /** One submission id, one payload. */
  ghost predicate OnePayload(w: World) {
    forall i, j :: Known(w, i) && Known(w, j) && i.submissionId == j.submissionId ==> i == j
  }

  ghost predicate WorldSafe(q: Quiz, w: World) {
    && Lawful(q, w.events)
    && Safe(TruthOf(q, w.events, w.who), w.who, w.client)
    && OnePayload(w)
  }

  lemma ServerKeepsWorld(q: Quiz, w: World, e: Event)
    requires WorldSafe(q, w) && Lawful(q, w.events + [e])
    ensures WorldSafe(q, w.(events := w.events + [e]))
  {
    hide Lawful, Safe, TruthOf, Known;
    TruthGrows(q, w.events, e, w.who);
    SafeGrows(TruthOf(q, w.events, w.who), TruthOf(q, w.events + [e], w.who), w.who, w.client);
    var w' := w.(events := w.events + [e]);
    assert forall i :: Known(w', i) <==> Known(w, i) by { SameKnown(w, w'); }
  }

  lemma SameKnown(w: World, w': World)
    requires w'.sent == w.sent && w'.client == w.client
    ensures forall i :: Known(w', i) <==> Known(w, i)
  {
  }

  lemma KnownBefore(t: Truth, q: Quiz, w: World, w': World, a: Action, i: Intent)
    requires Coherent(t, w.who) && Safe(t, w.who, w.client) && Honest(t, a)
    requires w'.client == Act(w.client, a).0
    requires w'.sent == w.sent + (if Act(w.client, a).1.Some? then [Act(w.client, a).1.value] else [])
    requires Known(w', i) && !Known(w, i)
    ensures a.Submit? && i.submissionId == a.uuid && Holds(w'.client.storage, i)
  {
    hide Coherent, Safe, Honest, Act;
    if !Holds(w'.client.storage, i) {
      assert i in w'.sent && i !in w.sent;
      SentIsStored(t, w.who, w.client, a);
    }
    StoresOnlyNew(w.client, a, i);
  }

  /** Submit stores one intent. */
  lemma OneNewIntent(c: Client, a: Action, i: Intent, j: Intent)
    requires a.Submit? && Holds(Act(c, a).0.storage, i) && Holds(Act(c, a).0.storage, j)
    requires !Holds(c.storage, i) && !Holds(c.storage, j)
    ensures i == j
  {
    hide CanSelect;
  }

  lemma PayloadKept(t: Truth, q: Quiz, w: World, w': World, a: Action)
    requires Coherent(t, w.who) && Safe(t, w.who, w.client) && Honest(t, a) && OnePayload(w)
    requires w'.client == Act(w.client, a).0
    requires w'.sent == w.sent + (if Act(w.client, a).1.Some? then [Act(w.client, a).1.value] else [])
    requires a.Submit? ==> forall i :: Known(w, i) ==> i.submissionId != a.uuid
    ensures OnePayload(w')
  {
    hide Coherent, Safe, Honest, Act, Holds;
    forall i, j | Known(w', i) && Known(w', j) && i.submissionId == j.submissionId
      ensures i == j
    {
      if !Known(w, i) {
        KnownBefore(t, q, w, w', a, i);
      }
      if !Known(w, j) {
        KnownBefore(t, q, w, w', a, j);
      }
      if !Known(w, i) && !Known(w, j) {
        OneNewIntent(w.client, a, i, j);
      }
    }
  }

  lemma ClientKeepsWorld(q: Quiz, w: World, w': World, a: Action)
    requires WorldSafe(q, w) && ClientMoves(q, w, w', a)
    ensures WorldSafe(q, w')
  {
    hide Lawful, Safe, TruthOf, Known, Act, Honest, OnePayload;
    var t := TruthOf(q, w.events, w.who);
    TruthIsCoherent(q, w.events, w.who);
    PayloadKept(t, q, w, w', a);
    if Renewing(w.client, a) {
      SafeIsStored(t, w.who, w.client);
      FreshStart(TruthOf(q, w.events, w'.who), w'.who, w.client, a);
    } else {
      ActKeepsSafe(t, w.who, w.client, a);
      DeadRestart(w.client, a);
    }
  }

  lemma DeadRestart(c: Client, a: Action)
    requires a.Restarted? ==> a.g != c.generation
    ensures a.Restarted? ==> Act(c, a).0 == c
  {
  }

  /** The system invariant holds throughout every run. */
  lemma {:induction false} RunIsSafe(q: Quiz, ws: seq<World>, i: nat)
    requires Run(q, ws) && i < |ws|
    ensures WorldSafe(q, ws[i])
  {
    hide WorldSafe, ServerMoves, ClientMoves;
    if i == 0 {
      StartIsSafe(q, ws[0]);
    } else {
      var k := i - 1;
      RunIsSafe(q, ws, k);
      assert Next(q, ws[k], ws[k + 1]);
      NextKeepsWorld(q, ws[k], ws[k + 1]);
    }
  }

  lemma NextKeepsWorld(q: Quiz, w: World, w': World)
    requires WorldSafe(q, w) && Next(q, w, w')
    ensures WorldSafe(q, w')
  {
    hide WorldSafe, ClientMoves, Lawful;
    if ServerMoves(q, w, w') {
      var e: Event :| w' == w.(events := w.events + [e]) && Lawful(q, w.events + [e]);
      ServerKeepsWorld(q, w, e);
    } else {
      var a: Action :| ClientMoves(q, w, w', a);
      ClientKeepsWorld(q, w, w', a);
    }
  }

  lemma StartIsSafe(q: Quiz, w: World)
    requires LiveQuiz(q) && w.events == [] && w.sent == [] && w.client == Loaded(Storage(map[], map[]))
    ensures WorldSafe(q, w)
  {
    hide LiveQuiz, TruthOf;
  }

  // ---------- Agreement ----------

  /** Feedback is never optimistic: a receipt on screen was committed by the server, by
      one event of its run, in the epoch the client shows. */
  lemma FeedbackWasCommitted(q: Quiz, ws: seq<World>, n: nat)
    requires Run(q, ws) && n < |ws| && ws[n].client.state.Some? && ws[n].client.feedback.Some?
    ensures
      var w, r := ws[n], ws[n].client.feedback.value;
      && r.epoch == w.client.state.value.public.epoch
      && exists i, stored :: CommittedBy(q, Blank(), w.events, i, (w.who, r.questionId), stored)
           && r == Attempt.Teach(q, stored)
  {
    hide Run, LiveQuiz, Proper, FreshEpochs, Inv, CommittedBy, Before, Genuine, Stored, Belongs, Open, OnePayload;
    var w, r := ws[n], ws[n].client.feedback.value;
    RunIsSafe(q, ws, n);
    var k :| SaysReceipt(q, w.events, w.who, k, r);
    EveryReceiptWasCommitted(q, Blank(), w.events, k, (w.who, r.questionId));
  }

  /** While a result is on show, so is the question it is about: exactly as this learner's plan
      presented it, at a moment k of the room that holds the receipt. */
  lemma ResultShowsItsQuestion(q: Quiz, ws: seq<World>, n: nat) returns (k: nat)
    requires Run(q, ws) && n < |ws| && ws[n].client.state.Some? && ws[n].client.feedback.Some?
    ensures
      var w, r := ws[n], ws[n].client.feedback.value;
      && k <= |w.events| && w.who in RoomAt(q, w.events, k).attempts && Lookup(q, r.questionId).Some?
      && var plan := RoomAt(q, w.events, k).attempts[w.who];
      && r.questionId in plan.optionOrders
      && Asking(w.client) == Some(Attempt.Presented(Lookup(q, r.questionId).value, plan.optionOrders[r.questionId]))
  {
    hide Run, LiveQuiz, Proper, FreshEpochs, Inv, RoomAt, Genuine, Stored, Belongs, Open, OnePayload, Attempt.Presented;
    var w, r := ws[n], ws[n].client.feedback.value;
    RunIsSafe(q, ws, n);
    k :| SaysReceipt(q, w.events, w.who, k, r);
    RoomHasInv(q, w.events, k);
    HeldQuestion(q, RoomAt(q, w.events, k), w.who, r);
  }

  lemma HeldQuestion(q: Quiz, s: State, who: Id, r: Receipt)
    requires s.meta.Some? && Inv(q, q.contentVersion, s)
    requires (who, r.questionId) in s.answers && r == Attempt.Teach(q, s.answers[(who, r.questionId)])
    ensures who in s.attempts && r.questionId in s.attempts[who].optionOrders && Lookup(q, r.questionId).Some?
    ensures r.question
      == Attempt.Presented(Lookup(q, r.questionId).value, s.attempts[who].optionOrders[r.questionId])
  {
    hide PlansFit, AllProgress, Mirrored, OneVersionEach, MetaFits, Attempt.Rearranged;
    FitsOf(q, s.meta.value, s, (who, r.questionId));
    var stored := s.answers[(who, r.questionId)];
    Attempt.TaughtQuestionIsPresented(q, s.attempts[who].optionOrders[r.questionId], stored);
  }

  /** No two events commit an answer of one participant to one question in one epoch. */
  lemma NoSecondCommit(q: Quiz, ws: seq<World>, n: nat, i: nat, j: nat, f: Field, r1: Receipt, r2: Receipt)
    requires Run(q, ws) && n < |ws|
    requires CommittedBy(q, Blank(), ws[n].events, i, f, r1) && CommittedBy(q, Blank(), ws[n].events, j, f, r2)
    requires r1.epoch == r2.epoch
    ensures i == j && r1 == r2
  {
    hide Run, LiveQuiz, Proper, FreshEpochs, Before, Inv, Step;
    RunIsSafe(q, ws, n);
    CommitNamesQuestion(q, ws[n].events, i, f, r1);
    CommitNamesQuestion(q, ws[n].events, j, f, r2);
    if i < j {
      CommittedOnce(q, Blank(), ws[n].events, i, j, r1, r2);
    } else if j < i {
      CommittedOnce(q, Blank(), ws[n].events, j, i, r2, r1);
    }
  }

  lemma CommitNamesQuestion(q: Quiz, events: seq<Event>, i: nat, f: Field, r: Receipt)
    requires Lawful(q, events) && CommittedBy(q, Blank(), events, i, f, r)
    ensures r.questionId == f.1
  {
    hide LiveQuiz, Proper, FreshEpochs, Inv, Step, ReceiptOf, Issued;
    ProperAt(q, events, i);
    RunKeepsLegal(q, Blank(), events, i);
    var s := Before(q, Blank(), events, i);
    AcceptanceIsStored(q, s, events[i].cmd, events[i].now, r);
    ReceiptAward(q, s, s.meta.value, events[i].cmd, events[i].now);
  }

  /** The screen is always two real moments of one room: the private fields are the
      server's at `privateVersion`, the standings are the server's at the state's version,
      both of the same epoch, and the second is not older. */
  lemma ScreenIsReal(q: Quiz, ws: seq<World>, n: nat) returns (k: nat, j: nat)
    requires Run(q, ws) && n < |ws| && ws[n].client.state.Some?
    ensures k <= |ws[n].events| && j <= |ws[n].events|
    ensures
      var w, own, board := ws[n], RoomAt(q, ws[n].events, k), RoomAt(q, ws[n].events, j);
      var v := w.client.state.value;
      && own.meta.Some? && board.meta.Some?
      && own.meta.value.epoch == board.meta.value.epoch == v.public.epoch
      && own.meta.value.version == w.client.privateVersion <= board.meta.value.version == v.public.version
      && Assembles(q, own, own.meta.value, w.who) && v == View(q, own, w.who).(public := v.public)
      && Consistent(board) && v.public == PublicOf(q, board)
  {
    hide Run, Lawful, RoomAt, Inv, LiveQuiz, Assembles;
    var w := ws[n];
    RunIsSafe(q, ws, n);
    var v := w.client.state.value;
    var o :| o in TruthOf(q, w.events, w.who).views && Private(v, o) && o.public.version == w.client.privateVersion;
    k :| SaysState(q, w.events, w.who, k, o);
    j :| SaysPublic(q, w.events, j, v.public);
  }

  lemma ScreenStepsForward(q: Quiz, ws: seq<World>, n: nat)
    requires Run(q, ws) && n + 1 < |ws| && ws[n].client.state.Some? && ws[n + 1].client.state.Some?
    requires ws[n].client.state.value.public.epoch == ws[n + 1].client.state.value.public.epoch
    ensures ws[n].client.state.value.public.version <= ws[n + 1].client.state.value.public.version
    ensures ws[n].client.privateVersion <= ws[n + 1].client.privateVersion
  {
    hide LiveQuiz, Act, Lawful, Honest, TruthOf;
    assert Next(q, ws[n], ws[n + 1]);
    if !ServerMoves(q, ws[n], ws[n + 1]) {
      var a: Action :| ClientMoves(q, ws[n], ws[n + 1], a);
      VersionsNeverDrop(ws[n].client, a);
    }
  }

  /** The client shows this epoch at the moments i to j. */
  ghost predicate ShowsThroughout(ws: seq<World>, i: nat, j: nat, epoch: Id) {
    i <= j < |ws| && forall k :: i <= k <= j ==>
      ws[k].client.state.Some? && ws[k].client.state.value.public.epoch == epoch
  }

  /** Between any two moments of a run between which one epoch is shown throughout, the
      shown version and the version of the private fields do not drop. */
  lemma {:induction false} ScreenMovesForward(q: Quiz, ws: seq<World>, i: nat, j: nat, epoch: Id)
    requires Run(q, ws) && ShowsThroughout(ws, i, j, epoch)
    ensures ws[i].client.state.value.public.version <= ws[j].client.state.value.public.version
    ensures ws[i].client.privateVersion <= ws[j].client.privateVersion
    decreases j
  {
    hide Run;
    if i < j {
      ScreenMovesForward(q, ws, i, j - 1, epoch);
      ScreenStepsForward(q, ws, j - 1);
    }
  }

  /** Write-ahead intents, over whole runs: intents that share a submission id are the
      same intent wherever and whenever they were sent, across reloads. */
  lemma ResendsAreIdentical(q: Quiz, ws: seq<World>, n: nat, a: nat, b: nat)
    requires Run(q, ws) && n < |ws| && a < |ws[n].sent| && b < |ws[n].sent|
    requires ws[n].sent[a].submissionId == ws[n].sent[b].submissionId
    ensures ws[n].sent[a] == ws[n].sent[b]
  {
    hide Run, Lawful, Safe;
    RunIsSafe(q, ws, n);
    assert Known(ws[n], ws[n].sent[a]) && Known(ws[n], ws[n].sent[b]);
  }

  /** While an intent is pending it is in storage, it belongs to the state on screen,
      nothing is shown as its result, and its question has no receipt yet. */
  lemma PendingIsWrittenAhead(q: Quiz, ws: seq<World>, n: nat)
    requires Run(q, ws) && n < |ws| && ws[n].client.pending.Some?
    ensures
      var c, i := ws[n].client, ws[n].client.pending.value;
      && c.quizId in c.storage.intents && c.storage.intents[c.quizId] == Intact(i) && c.feedback.None?
      && (c.state.Some? ==>
            && i.quizId == c.quizId && i.epoch == c.state.value.public.epoch && i.participantId == ws[n].who
            && FindReceipt(c.state.value.receipts, i.questionId).None?)
  {
    hide Run, Lawful, TruthOf, FindReceipt;
    RunIsSafe(q, ws, n);
  }

  /** An intent goes on the wire only in that situation. */
  lemma SentWhileOpen(q: Quiz, ws: seq<World>, n: nat)
    requires Run(q, ws) && n + 1 < |ws| && |ws[n].sent| < |ws[n + 1].sent|
    ensures ws[n + 1].client.pending == Some(ws[n + 1].sent[|ws[n].sent|])
    ensures ws[n + 1].client.state.Some? && |ws[n + 1].sent| == |ws[n].sent| + 1
  {
    hide LiveQuiz, Act, Lawful, Honest, TruthOf, Safe, Coherent, OnePayload;
    RunIsSafe(q, ws, n);
    assert Next(q, ws[n], ws[n + 1]);
    assert !ServerMoves(q, ws[n], ws[n + 1]);
    var a: Action :| ClientMoves(q, ws[n], ws[n + 1], a);
    TruthIsCoherent(q, ws[n].events, ws[n].who);
    SentIsStored(TruthOf(q, ws[n].events, ws[n].who), ws[n].who, ws[n].client, a);
  }

  // ---------- The intents and the server's answers ----------

  /** The command that a sent intent makes of itself at the server. */
  predicate Carries(cmd: Command, i: Intent) {
    && cmd.Answer? && cmd.pid == i.participantId && cmd.epoch == i.epoch && cmd.rid == i.submissionId
    && cmd.qid == i.questionId && cmd.option == i.optionId
  }

  /** The participant's answers come from this browser: each of them carries an intent
      that it sent, however often. */
  ghost predicate AnswersWereSent(w: World, pid: Id) {
    forall k :: 0 <= k < |w.events| && w.events[k].cmd.Answer? && w.events[k].cmd.pid == pid ==>
      exists i :: i in w.sent && Carries(w.events[k].cmd, i)
  }

  /** A conflict names an earlier answer with this submission id and another payload. */
  lemma ConflictHasCause(q: Quiz, events: seq<Event>, k: nat) returns (i: nat)
    requires Lawful(q, events) && k < |events| && events[k].cmd.Answer?
    requires ReplyTo(q, Blank(), events, k) == Room.Reply.Refused(IdempotencyConflict)
    ensures i < k && events[i].cmd.Answer? && events[i].cmd.pid == events[k].cmd.pid
    ensures events[i].cmd.rid == events[k].cmd.rid
    ensures events[i].cmd.qid != events[k].cmd.qid || events[i].cmd.option != events[k].cmd.option
  {
    hide LiveQuiz, Proper, FreshEpochs, Inv, Step, Before, Served, Issued, Recorded, ReceiptFor;
    var cmd, s := events[k].cmd, RoomAt(q, events, k);
    ProperAt(q, events, k);
    if s.meta.None? {
      AbsentRoom(q, s, cmd, events[k].now);
      assert false;
    } else {
      var m := s.meta.value;
      RoomHasInv(q, events, k);
      MembersHavePlans(q, s, cmd.pid);
      AnswerReply(q, m, s, cmd, events[k].now);
      MirrorOf(q, s);
      assert (cmd.pid, cmd.rid) in s.requests;
      var r := s.requests[(cmd.pid, cmd.rid)];
      EveryReceiptWasCommitted(q, Blank(), events, k, (cmd.pid, r.questionId));
      i :| i < k && CommittedBy(q, Blank(), events, i, (cmd.pid, r.questionId), r);
      CommitCarries(q, events, i, (cmd.pid, r.questionId), r);
    }
  }

  lemma CommitCarries(q: Quiz, events: seq<Event>, i: nat, f: Field, r: Receipt)
    requires Lawful(q, events) && CommittedBy(q, Blank(), events, i, f, r)
    ensures r.questionId == events[i].cmd.qid && r.submissionId == events[i].cmd.rid
    ensures r.selectedOptionId == events[i].cmd.option
  {
    hide LiveQuiz, Proper, FreshEpochs, Inv, Step, Before, Issued, Recorded;
    ProperAt(q, events, i);
    RunKeepsLegal(q, Blank(), events, i);
    AcceptanceIsStored(q, Before(q, Blank(), events, i), events[i].cmd, events[i].now, r);
  }

  /** No intent that the browser sends is ever refused as a conflict, as long as the
      participant's answers come from it: resends carry one payload. */
  lemma NeverConflicts(q: Quiz, ws: seq<World>, n: nat, k: nat)
    requires Run(q, ws) && n < |ws| && k < |ws[n].events| && ws[n].events[k].cmd.Answer?
    requires AnswersWereSent(ws[n], ws[n].events[k].cmd.pid)
    ensures ReplyTo(q, Blank(), ws[n].events, k) != Room.Reply.Refused(IdempotencyConflict)
  {
    hide Run, Lawful, Safe, ReplyTo;
    RunIsSafe(q, ws, n);
    var w := ws[n];
    if ReplyTo(q, Blank(), w.events, k) == Room.Reply.Refused(IdempotencyConflict) {
      var i := ConflictHasCause(q, w.events, k);
      var x :| x in w.sent && Carries(w.events[i].cmd, x);
      var y :| y in w.sent && Carries(w.events[k].cmd, y);
      SentAlike(w, x, y);
    }
  }

  lemma SentAlike(w: World, x: Intent, y: Intent)
    requires OnePayload(w) && x in w.sent && y in w.sent
    ensures x.submissionId == y.submissionId ==> x == y
  {
    assert Known(w, x) && Known(w, y);
  }
}
