/** What every action of the client keeps, given that responses are things the server
    once said. `Truth` is what the server has said to one participant: private states,
    public snapshots and committed receipts. Nothing is assumed about which of them
    arrives when, or how often. */
module ClientInvariant {
  import opened Domain
  import opened Store
  import opened Protocol
  import opened Client

  datatype Truth = Truth(views: iset<Learner>, publics: iset<Public>, receipts: iset<Receipt>)

  /** Private states are consistent with each other fact of the server. */
  ghost predicate Coherent(t: Truth, who: Id) {
    forall v :: v in t.views ==>
      && v.participantId == who && v.public in t.publics && SoundLearner(v)
      && forall r :: r in v.receipts ==> r in t.receipts && r.epoch == v.public.epoch
  }

  /** `v` is the server's private state `o` with other standings. */
  ghost predicate Private(v: Learner, o: Learner) {
    v == o.(public := v.public) && v.public.epoch == o.public.epoch && v.public.quizId == o.public.quizId
  }

  /** The private fields are the server's at `version`; the standings are the server's
      at the state's own version, which is not older. */
  ghost predicate Genuine(t: Truth, v: Learner, version: int) {
    && (exists o :: o in t.views && Private(v, o) && o.public.version == version)
    && v.public in t.publics && version <= v.public.version
  }

  ghost predicate Stored(c: Client) {
    c.pending.Some? ==>
      && c.pending.value.quizId == c.quizId && c.feedback.None?
      && c.quizId in c.storage.intents && c.storage.intents[c.quizId] == Intact(c.pending.value)
  }

  ghost predicate Belongs(c: Client) {
    c.state.Some? && c.pending.Some? ==>
      && c.pending.value.epoch == c.state.value.public.epoch
      && c.pending.value.participantId == c.state.value.participantId
  }

  /** No intent stays pending once its question has a receipt. */
  ghost predicate Open(c: Client) {
    c.state.Some? && c.pending.Some? ==> FindReceipt(c.state.value.receipts, c.pending.value.questionId).None?
  }

  ghost predicate FeedbackTrue(t: Truth, c: Client) {
    c.state.Some? && c.feedback.Some? ==>
      c.feedback.value in t.receipts && c.feedback.value.epoch == c.state.value.public.epoch
  }

  ghost predicate StateTrue(t: Truth, who: Id, c: Client) {
    c.state.Some? ==>
      && c.state.value.public.quizId == c.quizId && c.state.value.participantId == who
      && Genuine(t, c.state.value, c.privateVersion)
  }

  ghost predicate Kept(t: Truth, who: Id, c: Client) {
    StateTrue(t, who, c) && FeedbackTrue(t, c) && Stored(c) && Belongs(c)
  }

  /** What holds between any two actions. */
  ghost predicate Safe(t: Truth, who: Id, c: Client) {
    Kept(t, who, c) && Open(c)
  }

  /** The arguments of an action come from the server, or from the user. */
  ghost predicate Honest(t: Truth, a: Action) {
    match a
    case JoinDone(_, incoming, _) => incoming in t.views
    case SyncDone(_, incoming, _, _) => incoming in t.views
    case RereadDone(_, incoming, _) => incoming in t.views
    case AnswerDone(_, _, receipt, _) => receipt in t.receipts
    case AnswerFailed(_, _, failure, _) => failure.Taken? ==> failure.receipt in t.receipts
    case Receive(snapshot) => snapshot in t.publics
    case _ => true
  }

  // ---------- Pieces ----------

  lemma AcceptedKept(t: Truth, who: Id, c: Client, r: Receipt, removable: bool)
    requires Kept(t, who, c) && r in t.receipts
    ensures Kept(t, who, Accepted(c, r, removable))
    ensures Open(c) ==> Open(Accepted(c, r, removable))
    ensures Accepted(c, r, removable).state == c.state
  {
    hide Genuine;
  }

  lemma MergedGenuine(t: Truth, who: Id, c: Client, incoming: Learner)
    requires Coherent(t, who) && incoming in t.views && StateTrue(t, who, c) && incoming.public.quizId == c.quizId
    ensures Genuine(t, Merged(c.state, incoming), incoming.public.version)
    ensures Merged(c.state, incoming).public.epoch == incoming.public.epoch
    ensures Merged(c.state, incoming).public.quizId == c.quizId
  {
    hide SoundLearner;
    var v := Merged(c.state, incoming);
    assert Private(v, incoming);
    if v.public != incoming.public {
      assert v.public == c.state.value.public;
    }
  }

  /** The state after taking an incoming one: whatever was pending for another room is gone. */
  lemma TookKept(t: Truth, who: Id, c: Client, incoming: Learner, sequence: nat, removable: bool)
    requires Coherent(t, who) && incoming in t.views && Kept(t, who, c)
    requires !Ignored(c, incoming, sequence)
    ensures Kept(t, who, Turned(Took(c, incoming, sequence, removable), c.state))
    ensures Took(c, incoming, sequence, removable).state == Some(Merged(c.state, incoming))
  {
    hide SoundLearner, Genuine, Merged, MarkOf;
    MergedGenuine(t, who, c, incoming);
    MergedParts(c.state, incoming);
  }

  lemma MergedParts(previous: Option<Learner>, incoming: Learner)
    ensures Merged(previous, incoming).receipts == incoming.receipts
    ensures Merged(previous, incoming).participantId == incoming.participantId
    ensures Merged(previous, incoming).currentQuestion == incoming.currentQuestion
    ensures Merged(previous, incoming).public.epoch == incoming.public.epoch
  {
  }

  lemma SettledSafe(t: Truth, who: Id, c: Client, removable: bool)
    requires Kept(t, who, c) && c.state.Some?
    requires forall r :: r in c.state.value.receipts ==> r in t.receipts && r.epoch == c.state.value.public.epoch
    requires forall r :: r in c.state.value.receipts ==> r.quizId == c.quizId
    ensures Safe(t, who, Settled(c, c.state.value.receipts, removable))
    ensures Settled(c, c.state.value.receipts, removable).state == c.state
  {
    hide Genuine;
  }

  lemma LatestSafe(t: Truth, who: Id, c: Client, receipts: seq<Receipt>, before: Option<Id>)
    requires Safe(t, who, c) && c.state.Some?
    requires forall r :: r in receipts ==> r in t.receipts && r.epoch == c.state.value.public.epoch
    ensures Safe(t, who, Latest(c, receipts, before))
  {
    hide Genuine;
  }

  /** Receipts of a genuine private state were committed in its epoch and quiz. */
  lemma IncomingReceipts(t: Truth, who: Id, v: Learner)
    requires Coherent(t, who) && v in t.views
    ensures forall r :: r in v.receipts ==> r in t.receipts && r.epoch == v.public.epoch && r.quizId == v.public.quizId
    ensures v.participantId == who
    ensures v.currentQuestion.Some? ==> FindReceipt(v.receipts, v.currentQuestion.value.id).None?
  {
    hide SoundPublic, SoundFields, SoundTotals;
    assert SoundLearner(v);
    forall r | r in v.receipts
      ensures r.quizId == v.public.quizId
      ensures v.currentQuestion.Some? ==> r.questionId != v.currentQuestion.value.id
    {
      var i :| 0 <= i < |v.receipts| && v.receipts[i] == r;
      SoundRow(v, i);
    }
  }

  lemma SoundRow(v: Learner, i: nat)
    requires SoundLearner(v) && i < |v.receipts|
    ensures v.receipts[i].quizId == v.public.quizId
    ensures v.currentQuestion.Some? ==> v.receipts[i].questionId != v.currentQuestion.value.id
  {
    hide SoundPublic, SoundFields;
    assert Asked(v.receipts)[i] in Asked(v.receipts);
  }

  lemma AppliedSafe(t: Truth, who: Id, c: Client, incoming: Learner, sequence: nat, removable: bool)
    requires Coherent(t, who) && incoming in t.views && Safe(t, who, c)
    ensures Safe(t, who, Applied(c, incoming, sequence, removable))
  {
    hide Coherent, Genuine, Took, Turned, Settled, Latest, Safe;
    SafeIsKept(t, who, c);
    if !Ignored(c, incoming, sequence) {
      TookState(c, incoming, sequence, removable);
      var d := Turned(Took(c, incoming, sequence, removable), c.state);
      TookKept(t, who, c, incoming, sequence, removable);
      TurnedState(Took(c, incoming, sequence, removable), c.state);
      MergedParts(c.state, incoming);
      IncomingReceipts(t, who, incoming);
      SettledSafe(t, who, d, removable);
      LatestSafe(t, who, Settled(d, incoming.receipts, removable), incoming.receipts, AskingId(c));
    }
  }

  lemma SafeIsKept(t: Truth, who: Id, c: Client)
    requires Safe(t, who, c)
    ensures Kept(t, who, c) && Open(c)
  {
  }

  lemma TookState(c: Client, incoming: Learner, sequence: nat, removable: bool)
    ensures Took(c, incoming, sequence, removable).state == Some(Merged(c.state, incoming))
  {
    hide Merged;
  }

  lemma TurnedState(c: Client, previous: Option<Learner>)
    requires c.state.Some?
    ensures Turned(c, previous).state == c.state && Turned(c, previous).quizId == c.quizId
  {
  }

  lemma WithPendingKept(t: Truth, who: Id, c: Client, removable: bool)
    requires Safe(t, who, c)
    ensures Kept(t, who, WithPending(c, removable))
  {
    hide Genuine;
  }

  lemma ResolveSafe(t: Truth, who: Id, c: Client, removable: bool)
    requires Coherent(t, who) && Kept(t, who, c)
    ensures Safe(t, who, Resolve(c, removable).0)
  {
    hide SoundLearner;
    if c.pending.Some? && c.state.Some? {
      var v := c.state.value;
      var o :| o in t.views && Private(v, o);
      IncomingReceipts(t, who, o);
    }
  }

  lemma SubmittedSafe(t: Truth, who: Id, c: Client, uuid: Id, writable: bool)
    requires Coherent(t, who) && Safe(t, who, c)
    ensures Safe(t, who, Submitted(c, uuid, writable).0)
  {
    hide SoundLearner;
    if CanSelect(c) && c.selected.Some? && writable {
      var o :| o in t.views && Private(c.state.value, o) && o.public.version == c.privateVersion;
      IncomingReceipts(t, who, o);
      assert Genuine(t, Submitted(c, uuid, writable).0.state.value, c.privateVersion);
    }
  }

  lemma ReceivedSafe(t: Truth, who: Id, c: Client, p: Public)
    requires Safe(t, who, c) && p in t.publics
    ensures Safe(t, who, Received(c, p))
  {
    if c.state.Some? {
      var o :| o in t.views && Private(c.state.value, o) && o.public.version == c.privateVersion;
      if p.quizId == c.quizId && p.epoch == c.state.value.public.epoch && p.version > c.state.value.public.version {
        var v := c.state.value.(public := p);
        assert Private(v, o);
        assert Genuine(t, v, c.privateVersion);
      }
    }
  }

  lemma AdvancedSafe(t: Truth, who: Id, c: Client, writable: bool)
    requires Coherent(t, who) && Safe(t, who, c)
    ensures Safe(t, who, Advanced(c, writable))
  {
    hide SoundLearner;
    if CanAdvance(c) {
      var o :| o in t.views && Private(c.state.value, o) && o.public.version == c.privateVersion;
      IncomingReceipts(t, who, o);
    }
  }

  /** Irrelevant fields. */
  lemma SafeDespite(t: Truth, who: Id, c: Client, d: Client)
    requires Safe(t, who, c)
    requires d.state == c.state && d.quizId == c.quizId && d.privateVersion == c.privateVersion
    requires d.pending == c.pending && d.feedback == c.feedback && d.storage == c.storage
    ensures Safe(t, who, d)
  {
  }

  lemma EmptySafe(t: Truth, who: Id, c: Client)
    requires c.state.None? && Stored(c)
    ensures Safe(t, who, c)
  {
  }

  lemma AnswerSafe(t: Truth, who: Id, c: Client, r: Receipt, removable: bool)
    requires Safe(t, who, c) && r in t.receipts
    ensures Safe(t, who, Answered(c, r, removable))
    ensures Safe(t, who, Refused(c, Taken(r), removable))
  {
    hide Genuine, Accepted, Kept, Open;
    AcceptedKept(t, who, c, r, removable);
    var d := Accepted(c, r, removable);
    SafeDespite(t, who, d, Counted(d));
  }

  /** Whatever arrives, and in whatever order, an action keeps the client safe; its
      private fields stay the server's at one version, its standings the server's at
      another, and feedback a receipt the server committed. */
  lemma ActKeepsSafe(t: Truth, who: Id, c: Client, a: Action)
    requires Coherent(t, who) && Safe(t, who, c) && Honest(t, a)
    ensures (a.JoinBegin? || a.Restarted? || a.Reload?) || Safe(t, who, Act(c, a).0)
    ensures Act(c, a).0.state.None? ==> Safe(t, who, Act(c, a).0)
  {
    hide Coherent, Safe, Applied, WithPending, Resolve, Submitted, Received, Advanced, Answered, Refused, Cleared,
      CanSelect;
    match a {
      case JoinDone(g, incoming, removable) =>
        if g == c.generation {
          var d := Counted(c);
          SafeDespite(t, who, c, d);
          AppliedSafe(t, who, d, incoming, d.requestSequence, removable);
          WithPendingKept(t, who, Applied(d, incoming, d.requestSequence, removable), removable);
          ResolveSafe(t, who, WithPending(Applied(d, incoming, d.requestSequence, removable), removable), removable);
        }
      case SyncDone(g, incoming, removable, sequence) =>
        if g == c.generation {
          AppliedSafe(t, who, c, incoming, sequence, removable);
          SafeIsKept(t, who, Applied(c, incoming, sequence, removable));
          ResolveSafe(t, who, Applied(c, incoming, sequence, removable), removable);
        }
      case RereadDone(g, incoming, removable) =>
        if g == c.generation {
          SafeDespite(t, who, c, Counted(c));
          AppliedSafe(t, who, Counted(c), incoming, Counted(c).requestSequence, removable);
        }
      case Submit(uuid, writable) => SubmittedSafe(t, who, c, uuid, writable);
      case AnswerDone(g, rid, receipt, removable) => AnswerSafe(t, who, c, receipt, removable);
      case AnswerFailed(g, rid, failure, removable) =>
        if failure.Taken? {
          AnswerSafe(t, who, c, failure.receipt, removable);
        } else {
          RejectionSafe(t, who, c, failure, removable);
        }
      case Receive(snapshot) => ReceivedSafe(t, who, c, snapshot);
      case Next(writable) => AdvancedSafe(t, who, c, writable);
      case JoinBegin(quizId) => EmptySafe(t, who, Act(c, a).0);
      case Restarted(g, removable) =>
        if g == c.generation {
          EmptySafe(t, who, Act(c, a).0);
        }
      case Reload => EmptySafe(t, who, Act(c, a).0);
      case Leave =>
        SafeIsStored(t, who, c);
        EmptySafe(t, who, Act(c, a).0);
      case _ => SafeDespite(t, who, c, Act(c, a).0);
    }
  }

  lemma SafeIsStored(t: Truth, who: Id, c: Client)
    requires Safe(t, who, c)
    ensures Stored(c)
  {
  }

  lemma RejectionSafe(t: Truth, who: Id, c: Client, f: Failure, removable: bool)
    requires Safe(t, who, c) && !f.Taken?
    ensures Safe(t, who, Refused(c, f, removable))
  {
    hide Genuine;
  }

  /** A join, an explicit restart or a reload forgets the state, whoever comes next. */
  lemma FreshStart(t: Truth, who: Id, c: Client, a: Action)
    requires Stored(c) && (a.JoinBegin? || a.Reload? || (a.Restarted? && a.g == c.generation))
    ensures Act(c, a).0.state.None? && Safe(t, who, Act(c, a).0)
  {
  }

  /** More truth does not hurt. */
  lemma SafeGrows(t: Truth, t': Truth, who: Id, c: Client)
    requires Safe(t, who, c)
    requires t.views <= t'.views && t.publics <= t'.publics && t.receipts <= t'.receipts
    ensures Safe(t', who, c)
  {
    if c.state.Some? {
      var o :| o in t.views && Private(c.state.value, o) && o.public.version == c.privateVersion;
      assert o in t'.views;
    }
  }

  // ---------- Two-state properties ----------

  lemma AppliedForward(c: Client, incoming: Learner, sequence: nat, removable: bool)
    requires c.state.Some?
    ensures
      var d := Applied(c, incoming, sequence, removable);
      d.state.Some? && (d.state.value.public.epoch == c.state.value.public.epoch ==>
        c.state.value.public.version <= d.state.value.public.version && c.privateVersion <= d.privateVersion)
  {
    hide Turned, Took, Settled, Latest;
    if !Ignored(c, incoming, sequence) {
      AppliedState(c, incoming, sequence, removable);
    }
  }

  lemma AppliedState(c: Client, incoming: Learner, sequence: nat, removable: bool)
    requires !Ignored(c, incoming, sequence)
    ensures Applied(c, incoming, sequence, removable).state == Some(Merged(c.state, incoming))
    ensures Applied(c, incoming, sequence, removable).privateVersion == incoming.public.version
  {
    hide Merged, MarkOf;
    var d := Turned(Took(c, incoming, sequence, removable), c.state);
    var e := Settled(d, incoming.receipts, removable);
    assert d.state == Some(Merged(c.state, incoming)) && d.privateVersion == incoming.public.version;
    assert e.state == d.state && e.privateVersion == d.privateVersion;
  }

  lemma ResolveFrame(c: Client, removable: bool)
    ensures
      var d := Resolve(WithPending(c, removable), removable).0;
      d.state == c.state && d.privateVersion == c.privateVersion
    ensures Resolve(c, removable).0.state == c.state && Resolve(c, removable).0.privateVersion == c.privateVersion
  {
  }

  /** As long as an action keeps the epoch, neither the shown version nor the version of
      the private fields drops. */
  lemma VersionsNeverDrop(c: Client, a: Action)
    requires c.state.Some? && Act(c, a).0.state.Some?
    requires Act(c, a).0.state.value.public.epoch == c.state.value.public.epoch
    ensures c.state.value.public.version <= Act(c, a).0.state.value.public.version
    ensures c.privateVersion <= Act(c, a).0.privateVersion
  {
    hide Applied, WithPending, Resolve, FindReceipt;
    match a {
      case JoinDone(g, incoming, removable) =>
        var d := Counted(c);
        AppliedForward(d, incoming, d.requestSequence, removable);
        ResolveFrame(Applied(d, incoming, d.requestSequence, removable), removable);
      case SyncDone(g, incoming, removable, sequence) =>
        AppliedForward(c, incoming, sequence, removable);
        ResolveFrame(Applied(c, incoming, sequence, removable), removable);
      case RereadDone(g, incoming, removable) =>
        AppliedForward(Counted(c), incoming, Counted(c).requestSequence, removable);
      case _ =>
    }
  }

  predicate ReadsState(a: Action) { a.JoinDone? || a.SyncDone? || a.RereadDone? }

  /** Only an authenticated state read changes private fields. A socket message, an
      answer, a timer or the user change none of them, nor the epoch. */
  lemma OnlyReadsChangePrivate(c: Client, a: Action)
    requires c.state.Some? && !ReadsState(a) && Act(c, a).0.state.Some?
    requires c.state.value.public.quizId == c.quizId
    ensures Private(Act(c, a).0.state.value, c.state.value)
    ensures Act(c, a).0.privateVersion == c.privateVersion
    ensures !a.Receive? ==> Act(c, a).0.state == c.state
  {
    hide FindReceipt, CanSelect, CanAdvance;
  }

  /** A socket message leaves everything but standings, gate and request count alone. */
  lemma SocketOnlyStandings(c: Client, p: Public)
    ensures
      var d := Act(c, Receive(p)).0;
      d == c.(state := d.state, gate := d.gate, requestSequence := d.requestSequence)
  {
  }

  /** Whatever is put on the wire is pending and already stored, belongs to the state on
      screen, and its question has no receipt there. */
  lemma SentIsStored(t: Truth, who: Id, c: Client, a: Action)
    requires Coherent(t, who) && Safe(t, who, c) && Honest(t, a) && Act(c, a).1.Some?
    ensures
      var d, i := Act(c, a).0, Act(c, a).1.value;
      && d.pending == Some(i) && d.quizId in d.storage.intents && d.storage.intents[d.quizId] == Intact(i)
      && d.state.Some? && i.quizId == d.quizId && i.epoch == d.state.value.public.epoch && i.participantId == who
      && d.feedback.None? && FindReceipt(d.state.value.receipts, i.questionId).None?
  {
    hide Coherent, Applied, WithPending, FindReceipt, CanSelect, Genuine;
    ActKeepsSafe(t, who, c, a);
  }

  // ---------- Intents keep their payload ----------

  /** An intent in some slot of the storage. */
  ghost predicate Holds(s: Storage, i: Intent) {
    exists k :: k in s.intents && s.intents[k] == Intact(i)
  }

  ghost predicate Smaller(s: Storage, u: Storage) {
    forall k :: k in s.intents ==> k in u.intents && u.intents[k] == s.intents[k]
  }

  lemma AppliedStores(c: Client, incoming: Learner, sequence: nat, removable: bool)
    ensures Smaller(Applied(c, incoming, sequence, removable).storage, c.storage)
  {
    hide Merged, MarkOf, FindReceipt;
    if !Ignored(c, incoming, sequence) {
      var d := Took(c, incoming, sequence, removable);
      var e := Turned(d, c.state);
      assert Smaller(d.storage, c.storage) && e.storage == d.storage;
      assert Smaller(Settled(e, incoming.receipts, removable).storage, e.storage);
    }
  }

  lemma ResolveStores(c: Client, removable: bool)
    ensures Smaller(Resolve(WithPending(c, removable), removable).0.storage, c.storage)
    ensures Smaller(Resolve(c, removable).0.storage, c.storage)
  {
    hide FindReceipt;
  }

  /** Only Submit stores an intent, and it stores one with its new id. */
  lemma StoresOnlyNew(c: Client, a: Action, i: Intent)
    requires Holds(Act(c, a).0.storage, i) && !Holds(c.storage, i)
    ensures a.Submit? && i.submissionId == a.uuid
  {
    hide Applied, WithPending, Resolve, FindReceipt, CanSelect, CanAdvance;
    match a {
      case JoinDone(g, incoming, removable) =>
        var d := Counted(c);
        AppliedStores(d, incoming, d.requestSequence, removable);
        ResolveStores(Applied(d, incoming, d.requestSequence, removable), removable);
      case SyncDone(g, incoming, removable, sequence) =>
        AppliedStores(c, incoming, sequence, removable);
        ResolveStores(Applied(c, incoming, sequence, removable), removable);
      case RereadDone(g, incoming, removable) =>
        AppliedStores(Counted(c), incoming, Counted(c).requestSequence, removable);
      case _ =>
    }
  }
}
