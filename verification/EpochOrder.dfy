/** Whether the epoch a client shows can go back. Overlapping private reads may be served
    in one order and arrive in the other, and the client compares versions only within an
    epoch; this is exactly how it happens. */
module EpochOrder {
  import opened Domain
  import opened Room
  import opened RoomRuns
  import opened Store
  import opened Acceptance
  import opened Client
  import opened ClientInvariant
  import opened EndToEnd

  // ---------- Reads that are taken ----------

  /** What a private read brings. */
  function Incoming(a: Action): Learner
    requires ReadsState(a)
  {
    match a
    case JoinDone(_, incoming, _) => incoming
    case SyncDone(_, incoming, _, _) => incoming
    case RereadDone(_, incoming, _) => incoming
  }

  /** The read belongs to the current generation and is not ignored. */
  predicate Takes(c: Client, a: Action) {
    match a
    case JoinDone(g, incoming, _) =>
      g == c.generation && !Ignored(Counted(c), incoming, Counted(c).requestSequence)
    case SyncDone(g, incoming, _, sequence) => g == c.generation && !Ignored(c, incoming, sequence)
    case RereadDone(g, incoming, _) =>
      g == c.generation && !Ignored(Counted(c), incoming, Counted(c).requestSequence)
    case _ => false
  }

  lemma OnlyReadsAreTaken(c: Client, a: Action)
    ensures Takes(c, a) ==> ReadsState(a)
  {
  }

  function ShownEpoch(c: Client): Option<Id> {
    if c.state.Some? then Some(c.state.value.public.epoch) else None
  }

  /** A read that is taken shows its epoch. */
  lemma TakenShows(c: Client, a: Action)
    requires Takes(c, a)
    ensures ShownEpoch(Act(c, a).0) == Some(Incoming(a).public.epoch)
  {
    hide Applied, WithPending, Resolve, Ignored;
    match a {
      case JoinDone(g, incoming, removable) =>
        var d := Counted(c);
        AppliedState(d, incoming, d.requestSequence, removable);
        ResolveFrame(Applied(d, incoming, d.requestSequence, removable), removable);
      case SyncDone(g, incoming, removable, sequence) =>
        AppliedState(c, incoming, sequence, removable);
        ResolveFrame(Applied(c, incoming, sequence, removable), removable);
      case RereadDone(g, incoming, removable) =>
        AppliedState(Counted(c), incoming, Counted(c).requestSequence, removable);
    }
  }

  /** Nothing else shows an epoch that was not shown. */
  lemma OthersShowTheSame(c: Client, a: Action)
    requires !Takes(c, a)
    ensures ShownEpoch(Act(c, a).0).Some? ==> ShownEpoch(Act(c, a).0) == ShownEpoch(c)
  {
    hide WithPending, Resolve, Merged, FindReceipt, CanSelect, CanAdvance, Turned, Took, Settled, Latest;
    match a {
      case JoinDone(g, incoming, removable) =>
        ResolveFrame(Applied(Counted(c), incoming, Counted(c).requestSequence, removable), removable);
      case SyncDone(g, incoming, removable, sequence) =>
        ResolveFrame(Applied(c, incoming, sequence, removable), removable);
      case _ =>
    }
  }

  // ---------- Runs with a record of their reads ----------

  datatype Move = Server | User(action: Action)

  /** A run, with what moved at each step. */
  ghost predicate Traced(q: Quiz, ws: seq<World>, moves: seq<Move>) {
    && Run(q, ws) && |moves| == |ws| - 1
    && forall i {:trigger moves[i]} :: 0 <= i < |moves| ==> Moved(q, ws[i], ws[i + 1], moves[i])
  }

  ghost predicate Moved(q: Quiz, w: World, w': World, move: Move) {
    match move
    case Server => ServerMoves(q, w, w')
    case User(a) => ClientMoves(q, w, w', a)
  }

  /** When a read was begun (an index of the run), and the moment of the server's run at
      which it was served. */
  datatype Read = Read(begun: nat, served: nat)

  predicate TakenAt(ws: seq<World>, moves: seq<Move>, n: nat) {
    && n < |moves| && n < |ws| && moves[n].User?
    && ReadsState(moves[n].action) && Takes(ws[n].client, moves[n].action)
  }

  /** Each read that is taken was served after it was begun and before it arrived. */
  ghost predicate Logged(q: Quiz, ws: seq<World>, moves: seq<Move>, log: map<nat, Read>) {
    forall n: nat {:trigger TakenAt(ws, moves, n)} :: TakenAt(ws, moves, n) ==> LoggedAt(q, ws, moves, log, n)
  }

  ghost predicate LoggedAt(q: Quiz, ws: seq<World>, moves: seq<Move>, log: map<nat, Read>, n: nat)
    requires TakenAt(ws, moves, n)
  {
    && n in log && log[n].begun <= n && |ws[log[n].begun].events| <= log[n].served
    && SaysState(q, ws[n].events, ws[n].who, log[n].served, Incoming(moves[n].action))
  }

  /** Each read that is taken was begun after the one before it had arrived. */
  ghost predicate OneAtATime(ws: seq<World>, moves: seq<Move>, log: map<nat, Read>) {
    forall m: nat, n: nat {:trigger TakenAt(ws, moves, m), TakenAt(ws, moves, n)} ::
      m < n && TakenAt(ws, moves, m) && TakenAt(ws, moves, n) && n in log ==> m < log[n].begun
  }

  lemma {:induction false} EventsGrow(q: Quiz, ws: seq<World>, moves: seq<Move>, i: nat, j: nat)
    requires Traced(q, ws, moves) && i <= j < |ws|
    ensures ws[i].events <= ws[j].events
    decreases j
  {
    hide Run, Lawful, Honest, Act, TruthOf;
    if i < j {
      EventsGrow(q, ws, moves, i, j - 1);
      assert Moved(q, ws[j - 1], ws[j], moves[j - 1]);
    }
  }

  /** Every run has a trace. */
  lemma {:induction false} RunIsTraced(q: Quiz, ws: seq<World>, n: nat) returns (moves: seq<Move>)
    requires Run(q, ws) && n < |ws|
    ensures |moves| == n && forall i {:trigger moves[i]} :: 0 <= i < n ==> Moved(q, ws[i], ws[i + 1], moves[i])
  {
    hide ServerMoves, ClientMoves;
    moves := [];
    if n > 0 {
      moves := RunIsTraced(q, ws, n - 1);
      var k := n - 1;
      assert EndToEnd.Next(q, ws[k], ws[k + 1]);
      if ServerMoves(q, ws[n - 1], ws[n]) {
        moves := moves + [Server];
      } else {
        var a: Action :| ClientMoves(q, ws[n - 1], ws[n], a);
        moves := moves + [User(a)];
      }
    }
  }

  /** Every run has a record of its reads. */
  lemma RunIsLogged(q: Quiz, ws: seq<World>, moves: seq<Move>) returns (log: map<nat, Read>)
    requires Traced(q, ws, moves)
    ensures Logged(q, ws, moves, log)
  {
    hide Run, Act, Takes, SaysState, ServerMoves;
    log := map[];
    NothingFirst(q, ws);
    for n := 0 to |moves|
      invariant forall k: nat {:trigger TakenAt(ws, moves, k)} :: k < n && TakenAt(ws, moves, k) ==>
        LoggedAt(q, ws, moves, log, k)
    {
      if TakenAt(ws, moves, n) {
        assert Moved(q, ws[n], ws[n + 1], moves[n]);
        var v := Incoming(moves[n].action);
        assert StateSaid(q, ws[n].events, ws[n].who, v);
        var k :| SaysState(q, ws[n].events, ws[n].who, k, v);
        log := log[n := Read(0, k)];
      }
    }
  }

  lemma NothingFirst(q: Quiz, ws: seq<World>)
    requires Run(q, ws)
    ensures ws[0].events == []
  {
    hide LiveQuiz;
  }

  // ---------- Where a shown epoch comes from ----------

  /** What is shown was brought by the last read that was taken. */
  lemma {:induction false} ShownWasTaken(q: Quiz, ws: seq<World>, moves: seq<Move>, i: nat) returns (n: nat)
    requires Traced(q, ws, moves) && i < |ws| && ShownEpoch(ws[i].client).Some?
    ensures n < i && TakenAt(ws, moves, n)
    ensures ShownEpoch(ws[i].client) == Some(Incoming(moves[n].action).public.epoch)
    ensures forall m: nat {:trigger TakenAt(ws, moves, m)} :: n < m < i ==> !TakenAt(ws, moves, m)
    decreases i
  {
    hide LiveQuiz, Act, Takes, Honest, Lawful;
    if i == 0 {
      assert false;
    } else {
      assert Moved(q, ws[i - 1], ws[i], moves[i - 1]);
      if TakenAt(ws, moves, i - 1) {
        TakenShows(ws[i - 1].client, moves[i - 1].action);
        n := i - 1;
      } else {
        if moves[i - 1].User? {
          OnlyReadsAreTaken(ws[i - 1].client, moves[i - 1].action);
          OthersShowTheSame(ws[i - 1].client, moves[i - 1].action);
        }
        n := ShownWasTaken(q, ws, moves, i - 1);
      }
    }
  }

  /** At moment k of the server's run the room was of epoch e. */
  ghost predicate WasAt(q: Quiz, events: seq<Event>, k: nat, e: Id) {
    k <= |events| && RoomAt(q, events, k).meta.Some? && RoomAt(q, events, k).meta.value.epoch == e
  }

  lemma ReadWasAt(q: Quiz, ws: seq<World>, moves: seq<Move>, log: map<nat, Read>, n: nat)
    requires Traced(q, ws, moves) && Logged(q, ws, moves, log) && TakenAt(ws, moves, n)
    ensures n in log && WasAt(q, ws[|ws| - 1].events, log[n].served, Incoming(moves[n].action).public.epoch)
  {
    hide Run, Moved, RoomAt, Takes, SaysState;
    var events, k := ws[n].events, log[n].served;
    assert LoggedAt(q, ws, moves, log, n);
    EventsGrow(q, ws, moves, n, |ws| - 1);
    SaidEpoch(q, events, ws[n].who, k, Incoming(moves[n].action));
    SameMoment(q, events, ws[|ws| - 1].events, k);
  }

  lemma SameMoment(q: Quiz, events: seq<Event>, more: seq<Event>, k: nat)
    requires events <= more && k <= |events|
    ensures RoomAt(q, more, k) == RoomAt(q, events, k)
  {
    assert more[..k] == events[..k];
  }

  lemma SaidEpoch(q: Quiz, events: seq<Event>, who: Id, k: nat, v: Learner)
    requires SaysState(q, events, who, k, v)
    ensures WasAt(q, events, k, v.public.epoch)
  {
    hide RoomAt, LiveQuiz;
  }

  // ---------- Going back ----------

  /** The room left epoch d before it came to e. */
  ghost predicate Older(q: Quiz, events: seq<Event>, d: Id, e: Id) {
    d != e && exists k, l :: k < l && WasAt(q, events, k, d) && WasAt(q, events, l, e)
  }

  /** At some moment the client shows an epoch older than one it showed before. */
  ghost predicate GoesBack(q: Quiz, ws: seq<World>)
    requires |ws| > 0
  {
    exists i: nat, j: nat :: i < j < |ws| && ShowsOlder(q, ws, i, j)
  }

  ghost predicate ShowsOlder(q: Quiz, ws: seq<World>, i: nat, j: nat)
    requires i < |ws| && j < |ws|
  {
    && ShownEpoch(ws[i].client).Some? && ShownEpoch(ws[j].client).Some?
    && Older(q, ws[|ws| - 1].events, ShownEpoch(ws[j].client).value, ShownEpoch(ws[i].client).value)
  }

  /** Two reads that were taken in one order and served in the other, on either side of a
      reset. */
  ghost predicate Crossed(ws: seq<World>, moves: seq<Move>, log: map<nat, Read>, m: nat, n: nat) {
    && m < n && TakenAt(ws, moves, m) && TakenAt(ws, moves, n) && m in log && n in log
    && log[n].served < log[m].served
    && Incoming(moves[n].action).public.epoch != Incoming(moves[m].action).public.epoch
  }

  /** A lawful room is not of epoch e, then d, then e. */
  lemma NoReturn(q: Quiz, events: seq<Event>, d: Id, e: Id, i: nat, j: nat, k: nat)
    requires Lawful(q, events) && i <= j <= k
    requires WasAt(q, events, i, e) && WasAt(q, events, j, d) && WasAt(q, events, k, e)
    ensures d == e
  {
    hide LiveQuiz, Proper, FreshEpochs, Before;
    EpochStays(q, Blank(), events, i, j, k);
  }

  /** Of two epochs the one seen at an earlier moment is the older, and not the other way. */
  lemma OlderByMoments(q: Quiz, events: seq<Event>, d: Id, e: Id, k: nat, l: nat)
    requires Lawful(q, events) && d != e && WasAt(q, events, k, d) && WasAt(q, events, l, e)
    ensures Older(q, events, d, e) <==> k < l
  {
    hide Lawful, WasAt;
    if Older(q, events, d, e) && l <= k {
      var x, y :| x < y && WasAt(q, events, x, d) && WasAt(q, events, y, e);
      if l <= x {
        NoReturn(q, events, d, e, l, x, y);
      } else {
        NoReturn(q, events, e, d, x, l, k);
      }
    }
  }

  lemma LastIsLawful(q: Quiz, ws: seq<World>)
    requires Run(q, ws) && |ws| > 0
    ensures Lawful(q, ws[|ws| - 1].events)
  {
    hide Run, Lawful, Safe, OnePayload;
    RunIsSafe(q, ws, |ws| - 1);
  }

  /** Exactly when the epoch a client shows goes back: when two private reads of its
      current generation crossed, that is were served on either side of a reset and taken
      in the other order. */
  lemma EpochGoesBackExactly(q: Quiz, ws: seq<World>, moves: seq<Move>, log: map<nat, Read>)
    requires Traced(q, ws, moves) && Logged(q, ws, moves, log)
    ensures GoesBack(q, ws) <==> exists m, n :: Crossed(ws, moves, log, m, n)
  {
    hide Run, Logged, TakenAt, Older, Moved;
    if GoesBack(q, ws) {
      var i: nat, j: nat :| i < j < |ws| && ShowsOlder(q, ws, i, j);
      var m, n := BackIsCrossed(q, ws, moves, log, i, j);
    }
    if m, n :| Crossed(ws, moves, log, m, n) {
      CrossedGoesBack(q, ws, moves, log, m, n);
    }
  }

  /** Every run has such a record, so this covers all of them. */
  lemma EveryRunGoesBackExactly(q: Quiz, ws: seq<World>) returns (moves: seq<Move>, log: map<nat, Read>)
    requires Run(q, ws) && |ws| > 0
    ensures Traced(q, ws, moves) && Logged(q, ws, moves, log)
    ensures GoesBack(q, ws) <==> exists m, n :: Crossed(ws, moves, log, m, n)
  {
    hide Run, Moved, Logged, GoesBack, Crossed;
    moves := RunIsTraced(q, ws, |ws| - 1);
    log := RunIsLogged(q, ws, moves);
    EpochGoesBackExactly(q, ws, moves, log);
  }

  lemma BackIsCrossed(q: Quiz, ws: seq<World>, moves: seq<Move>, log: map<nat, Read>, i: nat, j: nat)
    returns (m: nat, n: nat)
    requires Traced(q, ws, moves) && Logged(q, ws, moves, log) && i < j < |ws| && ShowsOlder(q, ws, i, j)
    ensures Crossed(ws, moves, log, m, n)
  {
    hide Run, Lawful, WasAt, Older, Logged, Takes;
    var events := ws[|ws| - 1].events;
    m := ShownWasTaken(q, ws, moves, i);
    n := ShownWasTaken(q, ws, moves, j);
    LastIsLawful(q, ws);
    ReadWasAt(q, ws, moves, log, m);
    ReadWasAt(q, ws, moves, log, n);
    var e, d := Incoming(moves[m].action).public.epoch, Incoming(moves[n].action).public.epoch;
    assert d != e by { OlderDiffers(q, events, d, e); }
    OlderByMoments(q, events, d, e, log[n].served, log[m].served);
    assert m != n;
    assert TakenAt(ws, moves, m) && m < j;
  }

  lemma OlderDiffers(q: Quiz, events: seq<Event>, d: Id, e: Id)
    requires Older(q, events, d, e)
    ensures d != e
  {
  }

  lemma CrossedGoesBack(q: Quiz, ws: seq<World>, moves: seq<Move>, log: map<nat, Read>, m: nat, n: nat)
    requires Traced(q, ws, moves) && Logged(q, ws, moves, log) && Crossed(ws, moves, log, m, n)
    ensures GoesBack(q, ws)
  {
    hide Run, Lawful, WasAt, Older, Logged, Takes, Act;
    var events := ws[|ws| - 1].events;
    var e, d := Incoming(moves[m].action).public.epoch, Incoming(moves[n].action).public.epoch;
    assert Moved(q, ws[m], ws[m + 1], moves[m]) && Moved(q, ws[n], ws[n + 1], moves[n]);
    TakenShows(ws[m].client, moves[m].action);
    TakenShows(ws[n].client, moves[n].action);
    LastIsLawful(q, ws);
    ReadWasAt(q, ws, moves, log, m);
    ReadWasAt(q, ws, moves, log, n);
    OlderByMoments(q, events, d, e, log[n].served, log[m].served);
    assert ShowsOlder(q, ws, m + 1, n + 1);
  }

  /** Reads that cross overlap: the later one to arrive was begun before the other arrived. */
  lemma CrossedOverlap(q: Quiz, ws: seq<World>, moves: seq<Move>, log: map<nat, Read>, m: nat, n: nat)
    requires Traced(q, ws, moves) && Logged(q, ws, moves, log) && Crossed(ws, moves, log, m, n)
    ensures log[n].begun <= m
  {
    hide Run, Takes, Moved, RoomAt;
    assert log[m].served <= |ws[m].events| by {
      assert LoggedAt(q, ws, moves, log, m);
    }
    assert |ws[log[n].begun].events| <= log[n].served by {
      assert LoggedAt(q, ws, moves, log, n);
    }
    if m < log[n].begun {
      EventsGrow(q, ws, moves, m, log[n].begun);
    }
  }

  /** With one read at a time the epoch never goes back. */
  lemma OneAtATimeNeverGoesBack(q: Quiz, ws: seq<World>, moves: seq<Move>, log: map<nat, Read>)
    requires Traced(q, ws, moves) && Logged(q, ws, moves, log) && OneAtATime(ws, moves, log)
    ensures !GoesBack(q, ws)
  {
    hide Run, Moved, Logged, TakenAt, GoesBack;
    EpochGoesBackExactly(q, ws, moves, log);
    if m, n :| Crossed(ws, moves, log, m, n) {
      CrossedOverlap(q, ws, moves, log, m, n);
    }
  }

  /** Leaving an epoch and returning to it is going back. */
  lemma ReturnGoesBack(q: Quiz, ws: seq<World>, moves: seq<Move>, log: map<nat, Read>, i: nat, j: nat, n: nat)
    requires Traced(q, ws, moves) && Logged(q, ws, moves, log) && i < j < n < |ws|
    requires ShownEpoch(ws[i].client).Some? && ShownEpoch(ws[j].client).Some?
    requires ShownEpoch(ws[i].client) == ShownEpoch(ws[n].client) != ShownEpoch(ws[j].client)
    ensures GoesBack(q, ws)
  {
    hide Run, Moved, Lawful, WasAt, Older, Logged, Takes;
    var events := ws[|ws| - 1].events;
    var x := ShownWasTaken(q, ws, moves, i);
    var y := ShownWasTaken(q, ws, moves, j);
    LastIsLawful(q, ws);
    ReadWasAt(q, ws, moves, log, x);
    ReadWasAt(q, ws, moves, log, y);
    var e, d := ShownEpoch(ws[i].client).value, ShownEpoch(ws[j].client).value;
    OlderByMoments(q, events, d, e, log[y].served, log[x].served);
    OlderByMoments(q, events, e, d, log[x].served, log[y].served);
    SameMomentSame(q, events, d, e, log[x].served, log[y].served);
    assert ShowsOlder(q, ws, i, j) || ShowsOlder(q, ws, j, n);
  }

  /** With one read at a time an epoch that the client shows twice was shown all along: it
      does not leave an epoch and return to it. */
  lemma OneAtATimeNeverReturns(
    q: Quiz, ws: seq<World>, moves: seq<Move>, log: map<nat, Read>, i: nat, j: nat, n: nat)
    requires Traced(q, ws, moves) && Logged(q, ws, moves, log) && OneAtATime(ws, moves, log)
    requires i <= j <= n < |ws| && ShownEpoch(ws[i].client) == ShownEpoch(ws[n].client)
    requires ShownEpoch(ws[i].client).Some? && ShownEpoch(ws[j].client).Some?
    ensures ShownEpoch(ws[j].client) == ShownEpoch(ws[i].client)
  {
    hide Run, Moved, Logged, OneAtATime, GoesBack, ShownEpoch;
    OneAtATimeNeverGoesBack(q, ws, moves, log);
    if ShownEpoch(ws[j].client) != ShownEpoch(ws[i].client) {
      ReturnGoesBack(q, ws, moves, log, i, j, n);
    }
  }

  lemma SameMomentSame(q: Quiz, events: seq<Event>, d: Id, e: Id, k: nat, l: nat)
    requires WasAt(q, events, k, e) && WasAt(q, events, l, d) && d != e
    ensures k != l
  {
    hide RoomAt;
  }

  // ---------- That it happens ----------

  lemma AppliedSequence(c: Client, incoming: Learner, sequence: nat, removable: bool)
    requires !Ignored(c, incoming, sequence)
    ensures Applied(c, incoming, sequence, removable).appliedSequence == sequence
    ensures Applied(c, incoming, sequence, removable).requestSequence == c.requestSequence
    ensures Applied(c, incoming, sequence, removable).generation == c.generation
    ensures Applied(c, incoming, sequence, removable).quizId == c.quizId
  {
    hide Merged, MarkOf, FindReceipt;
  }

  lemma ResolvedSequence(c: Client, removable: bool)
    ensures
      var d := Resolve(c, removable).0;
      && d.appliedSequence == c.appliedSequence && d.requestSequence == c.requestSequence
      && d.generation == c.generation && d.quizId == c.quizId
  {
    hide FindReceipt;
  }

  /** A client that shows epoch A begins two reads; the first brings epoch B, and then the
      second, served earlier, brings A again. */
  lemma SyncsCross(c: Client, a: Learner, b: Learner, removable: bool)
    requires c.appliedSequence <= c.requestSequence && a.public.quizId == b.public.quizId == c.quizId
    requires ShownEpoch(c) == Some(a.public.epoch) && a.public.epoch != b.public.epoch
    ensures
      var begun := Act(Act(c, SyncBegin).0, SyncBegin).0;
      var first := SyncDone(c.generation, b, removable, c.requestSequence + 1);
      var second := SyncDone(c.generation, a, removable, c.requestSequence + 2);
      && Takes(begun, first) && Takes(Act(begun, first).0, second)
      && ShownEpoch(Act(begun, first).0) == Some(b.public.epoch)
      && ShownEpoch(Act(Act(begun, first).0, second).0) == Some(a.public.epoch)
  {
    hide Applied, Resolve;
    var begun := Act(Act(c, SyncBegin).0, SyncBegin).0;
    var first := SyncDone(c.generation, b, removable, c.requestSequence + 1);
    var d := Applied(begun, b, c.requestSequence + 1, removable);
    AppliedSequence(begun, b, c.requestSequence + 1, removable);
    ResolvedSequence(d, removable);
    TakenShows(begun, first);
    TakenShows(Act(begun, first).0, SyncDone(c.generation, a, removable, c.requestSequence + 2));
  }

  /** The same with the read that follows a refused clock, which takes its number only when
      it arrives. */
  lemma RereadCrosses(c: Client, a: Learner, b: Learner, removable: bool)
    requires c.appliedSequence <= c.requestSequence && a.public.quizId == b.public.quizId == c.quizId
    requires ShownEpoch(c) == Some(a.public.epoch) && a.public.epoch != b.public.epoch
    ensures
      var begun := Act(c, SyncBegin).0;
      var first := SyncDone(c.generation, b, removable, c.requestSequence + 1);
      var second := RereadDone(c.generation, a, removable);
      && Takes(begun, first) && Takes(Act(begun, first).0, second)
      && ShownEpoch(Act(begun, first).0) == Some(b.public.epoch)
      && ShownEpoch(Act(Act(begun, first).0, second).0) == Some(a.public.epoch)
  {
    hide Applied, Resolve;
    var begun := Act(c, SyncBegin).0;
    var first := SyncDone(c.generation, b, removable, c.requestSequence + 1);
    var d := Applied(begun, b, c.requestSequence + 1, removable);
    AppliedSequence(begun, b, c.requestSequence + 1, removable);
    ResolvedSequence(d, removable);
    TakenShows(begun, first);
    TakenShows(Act(begun, first).0, RereadDone(c.generation, a, removable));
  }
}
