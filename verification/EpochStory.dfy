/** A run in which the epoch a client shows goes back, for any quiz, member and epochs. */
module EpochStory {
  import opened Domain
  import opened Attempt
  import opened Room
  import opened RoomInvariant
  import opened RoomSteps
  import opened RoomRuns
  import opened Store
  import opened Acceptance
  import opened Client
  import opened ClientInvariant
  import opened EndToEnd
  import opened EpochOrder

  // ---------- The server's part ----------

  function JoinOf(who: Id, name: string, plan: Plan): Event {
    Event(Command.Join(who, name, Some(plan)), 1)
  }

  /** A room, a member, a reset, and the member again. */
  function Script(q: Quiz, who: Id, name: string, plan: Plan, a: Id, b: Id): seq<Event> {
    [Event(Seed(a, 200, ManifestOf(q), q.legacyContentVersion), 1), JoinOf(who, name, plan),
     Event(Reset(b, 200, ManifestOf(q)), 1), JoinOf(who, name, plan)]
  }

  ghost predicate Ready(q: Quiz, name: string, plan: Plan, a: Id, b: Id) {
    LiveQuiz(q) && name != "" && PlanFits(ManifestOf(q), q.contentVersion, plan) && a != b
  }

  lemma ScriptIsLawful(q: Quiz, who: Id, name: string, plan: Plan, a: Id, b: Id, k: nat)
    requires Ready(q, name, plan, a, b) && k <= 4
    ensures Lawful(q, Script(q, who, name, plan, a, b)[..k])
  {
    hide LiveQuiz, PlanFits, ManifestOf;
    var events := Script(q, who, name, plan, a, b);
    forall e | e in events[..k]
      ensures Issued(q, e.cmd) && Ticking(e.now)
    {
      assert e in events;
    }
  }

  /** A new room lets a member in. */
  lemma OpenedAdmits(q: Quiz, epoch: Id, who: Id, name: string, plan: Plan)
    requires LiveQuiz(q) && name != "" && PlanFits(ManifestOf(q), q.contentVersion, plan)
    ensures
      var s := Opened(epoch, q.contentVersion, 200, ManifestOf(q));
      var t := Step(s, q.contentVersion, JoinOf(who, name, plan).cmd, 1).0;
      t.meta.Some? && t.meta.value.epoch == epoch && who in t.participants
  {
    hide Inv, LiveQuiz, PlanFits, ManifestOf, Step;
    var s := Opened(epoch, q.contentVersion, 200, ManifestOf(q));
    OpenedIsLegal(q, epoch, 200);
    ServedDirectly(q, s.meta.value, s, JoinOf(who, name, plan).cmd, 1);
  }

  /** What the server said to the member before the reset and after it. */
  lemma ScriptSays(q: Quiz, who: Id, name: string, plan: Plan, a: Id, b: Id, k: nat) returns (v: Learner)
    requires Ready(q, name, plan, a, b) && k in {2, 4}
    ensures
      var events := Script(q, who, name, plan, a, b)[..k];
      && SaysState(q, events, who, k, v) && v.public.quizId == q.id
      && v.public.epoch == if k == 2 then a else b
  {
    hide LiveQuiz, PlanFits, ManifestOf, Step, Inv, Before, View, Assembles, PublicOf;
    var events := Script(q, who, name, plan, a, b)[..k];
    ScriptIsLawful(q, who, name, plan, a, b, k);
    ScriptRooms(q, who, name, plan, a, b, k);
    ReadReplyIsSaid(q, events, k, who);
    v := View(q, RoomAt(q, events, k), who);
    SaidEpoch(q, events, who, k, v);
    SaidQuiz(q, events, who, k, v);
  }

  lemma SaidQuiz(q: Quiz, events: seq<Event>, who: Id, k: nat, v: Learner)
    requires SaysState(q, events, who, k, v)
    ensures v.public.quizId == q.id
  {
    hide RoomAt, LiveQuiz;
  }

  lemma ScriptRooms(q: Quiz, who: Id, name: string, plan: Plan, a: Id, b: Id, k: nat)
    requires Ready(q, name, plan, a, b) && k in {2, 4}
    ensures
      var s := RoomAt(q, Script(q, who, name, plan, a, b)[..k], k);
      s.meta.Some? && s.meta.value.epoch == (if k == 2 then a else b) && who in s.participants
  {
    hide LiveQuiz, PlanFits, ManifestOf, Step, Inv, Before, Opened;
    var events := Script(q, who, name, plan, a, b)[..k];
    var epoch := if k == 2 then a else b;
    ScriptIsLawful(q, who, name, plan, a, b, k);
    RunKeepsLegal(q, Blank(), events, k - 2);
    BeforeNext(q, Blank(), events, k - 2);
    BeforeNext(q, Blank(), events, k - 1);
    ProperAt(q, events, k - 2);
    RenewedRoom(q, Before(q, Blank(), events, k - 2), events[k - 2].cmd, 1);
    OpenedAdmits(q, epoch, who, name, plan);
  }

  // ---------- The browser's part ----------

  /** A run with what moved and with a record of its reads. */
  datatype Film = Film(ws: seq<World>, moves: seq<Move>, log: map<nat, Read>)

  ghost predicate Real(q: Quiz, f: Film) {
    Traced(q, f.ws, f.moves) && Logged(q, f.ws, f.moves, f.log)
  }

  function Last(f: Film): World
    requires f.ws != []
  {
    f.ws[|f.ws| - 1]
  }

  function Shot(f: Film, w: World, move: Move, r: Read): Film {
    Film(f.ws + [w], f.moves + [move], f.log[|f.moves| := r])
  }

  function Served(w: World, e: Event): World {
    w.(events := w.events + [e])
  }

  function Acted(w: World, a: Action): World {
    w.(client := Act(w.client, a).0,
       sent := w.sent + (if Act(w.client, a).1.Some? then [Act(w.client, a).1.value] else []))
  }

  /** The read was begun at a moment of the film, served after that, and brings what was said. */
  ghost predicate Brought(q: Quiz, f: Film, a: Action, r: Read)
    requires f.ws != []
  {
    && ReadsState(a) && r.begun < |f.ws| && |f.ws[r.begun].events| <= r.served
    && SaysState(q, Last(f).events, Last(f).who, r.served, Incoming(a))
  }

  /** A run and its record, one move longer. */
  lemma OneMoreMove(q: Quiz, ws: seq<World>, moves: seq<Move>, log: map<nat, Read>, w: World, move: Move, r: Read)
    requires Traced(q, ws, moves) && Logged(q, ws, moves, log) && Moved(q, ws[|moves|], w, move)
    requires move.User? && ReadsState(move.action) ==>
      && r.begun <= |moves| && |ws[r.begun].events| <= r.served
      && SaysState(q, ws[|moves|].events, ws[|moves|].who, r.served, Incoming(move.action))
    ensures Traced(q, ws + [w], moves + [move]) && Logged(q, ws + [w], moves + [move], log[|moves| := r])
  {
    hide LiveQuiz, ServerMoves, ClientMoves, Takes, SaysState, ReadsState;
    var ws', moves' := ws + [w], moves + [move];
    forall i | 0 <= i < |moves'|
      ensures Moved(q, ws'[i], ws'[i + 1], moves'[i])
    {
      if i < |moves| {
        assert Moved(q, ws[i], ws[i + 1], moves[i]);
      }
    }
    forall i | 0 <= i < |ws'| - 1
      ensures EndToEnd.Next(q, ws'[i], ws'[i + 1])
    {
      assert Moved(q, ws'[i], ws'[i + 1], moves'[i]);
    }
    forall n: nat | TakenAt(ws', moves', n)
      ensures LoggedAt(q, ws', moves', log[|moves| := r], n)
    {
      if n < |moves| {
        assert TakenAt(ws, moves, n);
        assert LoggedAt(q, ws, moves, log, n);
      }
    }
  }

  lemma ServerShot(q: Quiz, f: Film, e: Event)
    requires Real(q, f) && f.ws != [] && Lawful(q, Last(f).events + [e])
    ensures Real(q, Shot(f, Served(Last(f), e), Server, Read(0, 0)))
  {
    hide Run, Lawful, Logged;
    OneMoreMove(q, f.ws, f.moves, f.log, Served(Last(f), e), Server, Read(0, 0));
  }

  lemma UserShot(q: Quiz, f: Film, a: Action, r: Read)
    requires Real(q, f) && f.ws != [] && (a.JoinBegin? || a.SyncBegin? || Brought(q, f, a, r))
    ensures Real(q, Shot(f, Acted(Last(f), a), User(a), r))
  {
    hide Run, Lawful, Logged, SaysState, Act;
    if ReadsState(a) {
      assert StateSaid(q, Last(f).events, Last(f).who, Incoming(a));
    }
    OneMoreMove(q, f.ws, f.moves, f.log, Acted(Last(f), a), User(a), r);
  }

  function Opening(who: Id): Film {
    Film([World([], who, Loaded(Storage(map[], map[])), [])], [], map[])
  }

  lemma OpeningIsReal(q: Quiz, who: Id)
    requires LiveQuiz(q)
    ensures Real(q, Opening(who))
  {
    hide LiveQuiz;
  }

  /** Joining for the first time. */
  lemma JoinShows(quizId: Id, v: Learner)
    requires v.public.quizId == quizId
    ensures
      var c := Act(Loaded(Storage(map[], map[])), JoinBegin(quizId)).0;
      var d := Act(c, JoinDone(1, v, true)).0;
      ShownEpoch(d) == Some(v.public.epoch) && d.quizId == quizId && d.appliedSequence <= d.requestSequence
  {
    hide Applied, Resolve;
    var c := Act(Loaded(Storage(map[], map[])), JoinBegin(quizId)).0;
    TakenShows(c, JoinDone(1, v, true));
    var d := Counted(c);
    AppliedSequence(d, v, d.requestSequence, true);
    ResolvedSequence(WithPending(Applied(d, v, d.requestSequence, true), true), true);
  }

  lemma SaidLater(q: Quiz, events: seq<Event>, more: seq<Event>, who: Id, k: nat, v: Learner)
    requires SaysState(q, events, who, k, v) && events <= more
    ensures SaysState(q, more, who, k, v)
  {
    hide RoomAt, View, Assembles;
    SameMoment(q, events, more, k);
  }

  /** The member joins and sees the first epoch. */
  lemma FirstAct(q: Quiz, who: Id, name: string, plan: Plan, a: Id, b: Id, v: Learner) returns (f: Film)
    requires Ready(q, name, plan, a, b)
    requires SaysState(q, Script(q, who, name, plan, a, b)[..2], who, 2, v)
    requires v.public.quizId == q.id && v.public.epoch == a
    ensures Real(q, f) && |f.ws| == 5 && |f.moves| == 4
    ensures Last(f).events == Script(q, who, name, plan, a, b)[..2] && Last(f).who == who
    ensures ShownEpoch(Last(f).client) == Some(a) && Last(f).client.quizId == q.id
    ensures Last(f).client.appliedSequence <= Last(f).client.requestSequence
  {
    hide LiveQuiz, PlanFits, ManifestOf, Lawful, SaysState, Act, Real, Traced, Logged;
    var events := Script(q, who, name, plan, a, b);
    ScriptIsLawful(q, who, name, plan, a, b, 1);
    ScriptIsLawful(q, who, name, plan, a, b, 2);
    OpeningIsReal(q, who);
    f := Opening(who);
    assert events[..1] == [] + [events[0]] && events[..2] == events[..1] + [events[1]];
    ServerShot(q, f, events[0]);
    f := Shot(f, Served(Last(f), events[0]), Server, Read(0, 0));
    ServerShot(q, f, events[1]);
    f := Shot(f, Served(Last(f), events[1]), Server, Read(0, 0));
    UserShot(q, f, JoinBegin(q.id), Read(0, 0));
    f := Shot(f, Acted(Last(f), JoinBegin(q.id)), User(JoinBegin(q.id)), Read(0, 0));
    UserShot(q, f, JoinDone(1, v, true), Read(3, 2));
    f := Shot(f, Acted(Last(f), JoinDone(1, v, true)), User(JoinDone(1, v, true)), Read(3, 2));
    JoinShows(q.id, v);
  }

  /** The reset, and the member in the new room. */
  lemma ResetShots(q: Quiz, f: Film, who: Id, name: string, plan: Plan, a: Id, b: Id) returns (g: Film)
    requires Ready(q, name, plan, a, b) && Real(q, f) && f.ws != []
    requires Last(f).events == Script(q, who, name, plan, a, b)[..2]
    ensures Real(q, g) && f.ws < g.ws && |g.ws| == |f.ws| + 2 && |g.moves| == |f.moves| + 2 && f.moves <= g.moves
    ensures Last(g) == Last(f).(events := Script(q, who, name, plan, a, b))
  {
    hide LiveQuiz, PlanFits, ManifestOf, Lawful, Real;
    var events := Script(q, who, name, plan, a, b);
    ScriptIsLawful(q, who, name, plan, a, b, 3);
    ScriptIsLawful(q, who, name, plan, a, b, 4);
    assert events[..3] == events[..2] + [events[2]] && events[..4] == events[..3] + [events[3]] == events;
    ServerShot(q, f, events[2]);
    g := Shot(f, Served(Last(f), events[2]), Server, Read(0, 0));
    ServerShot(q, g, events[3]);
    g := Shot(g, Served(Last(g), events[3]), Server, Read(0, 0));
  }

  lemma Begin(q: Quiz, f: Film) returns (g: Film)
    requires Real(q, f) && f.ws != []
    ensures Real(q, g) && f.ws < g.ws && |g.ws| == |f.ws| + 1 && g.moves == f.moves + [User(SyncBegin)]
    ensures Last(g) == Last(f).(client := Act(Last(f).client, SyncBegin).0)
  {
    hide Real;
    UserShot(q, f, SyncBegin, Read(0, 0));
    g := Shot(f, Acted(Last(f), SyncBegin), User(SyncBegin), Read(0, 0));
    assert Last(f).sent + [] == Last(f).sent;
  }

  lemma Arrive(q: Quiz, f: Film, a: Action, r: Read) returns (g: Film)
    requires Real(q, f) && f.ws != [] && Brought(q, f, a, r)
    ensures Real(q, g) && f.ws < g.ws && |g.ws| == |f.ws| + 1 && g.moves == f.moves + [User(a)]
    ensures Last(g).events == Last(f).events && Last(g).who == Last(f).who && Last(g).client == Act(Last(f).client, a).0
  {
    hide Real, Brought, Act;
    UserShot(q, f, a, r);
    g := Shot(f, Acted(Last(f), a), User(a), r);
  }

  /** The epoch does go back, in a run for every quiz, member, plan and pair of epochs.
      Two reads overlap a reset. The one served after it arrives first; the other was
      served before it, and arrives last. Both are synchronizations, or the late one is
      the read that follows a refused clock. */
  lemma EpochCanGoBack(q: Quiz, who: Id, name: string, plan: Plan, a: Id, b: Id, reread: bool)
    returns (f: Film, j: nat)
    requires Ready(q, name, plan, a, b)
    ensures Real(q, f) && 4 < j && |f.ws| == j + 2 && |f.moves| == j + 1
    ensures ShownEpoch(f.ws[4].client) == Some(a)
    ensures ShownEpoch(f.ws[j].client) == Some(b)
    ensures ShownEpoch(f.ws[j + 1].client) == Some(a)
    ensures f.moves[4] == User(SyncBegin) && f.moves[j].User?
    ensures
      if reread then f.moves[j].action.RereadDone?
      else f.moves[5] == User(SyncBegin) && f.moves[j].action.SyncDone?
    ensures GoesBack(q, f.ws)
  {
    hide LiveQuiz, PlanFits, ManifestOf, Lawful, SaysState, Act, Real, Script, GoesBack, ShownEpoch, Takes;
    var events := Script(q, who, name, plan, a, b);
    var va := ScriptSays(q, who, name, plan, a, b, 2);
    var vb := ScriptSays(q, who, name, plan, a, b, 4);
    ScriptLength(q, who, name, plan, a, b);
    SaidLater(q, events[..2], events, who, 2, va);
    f := FirstAct(q, who, name, plan, a, b, va);
    var c := Last(f).client;
    f := Begin(q, f);
    if !reread {
      f := Begin(q, f);
    }
    ghost var begun := f;
    f := ResetShots(q, f, who, name, plan, a, b);
    var first := SyncDone(c.generation, vb, true, c.requestSequence + 1);
    var second := if reread then RereadDone(c.generation, va, true)
      else SyncDone(c.generation, va, true, c.requestSequence + 2);
    assert Brought(q, f, first, Read(4, 4));
    f := Arrive(q, f, first, Read(4, 4));
    j := |f.ws| - 1;
    assert Brought(q, f, second, Read(5, 2));
    f := Arrive(q, f, second, Read(5, 2));
    if reread {
      RereadCrosses(c, va, vb, true);
    } else {
      SyncsCross(c, va, vb, true);
    }
    FilmGoesBack(q, f, 4, j, j + 1);
  }

  lemma ScriptLength(q: Quiz, who: Id, name: string, plan: Plan, a: Id, b: Id)
    ensures |Script(q, who, name, plan, a, b)| == 4
    ensures Script(q, who, name, plan, a, b)[..4] == Script(q, who, name, plan, a, b)
    ensures |Script(q, who, name, plan, a, b)[..2]| == 2
  {
  }

  lemma FilmGoesBack(q: Quiz, f: Film, i: nat, j: nat, n: nat)
    requires Real(q, f) && i < j < n < |f.ws|
    requires ShownEpoch(f.ws[i].client).Some? && ShownEpoch(f.ws[j].client).Some?
    requires ShownEpoch(f.ws[i].client) == ShownEpoch(f.ws[n].client) != ShownEpoch(f.ws[j].client)
    ensures GoesBack(q, f.ws)
  {
    hide Run, Moved, Logged, GoesBack;
    ReturnGoesBack(q, f.ws, f.moves, f.log, i, j, n);
  }
}
