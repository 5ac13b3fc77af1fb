/** What the hub can do by itself from any state, and what it tells newcomers. */
module HubProgress {
  import opened Domain
  import opened Store
  import opened Hub
  import opened HubSteps
  import opened HubPromises

  // ---------- Everyone can be informed ----------

  /** A step of the workers alone. */
  predicate WorkerStep(step: Step) {
    step.Take? || step.Read? || step.Deliver? || step.Finish?
  }

  /** Nobody owns a room. */
  predicate Quiet(s: State) {
    s.jobs == [] && forall w :: 0 <= w < |s.workers| ==> s.workers[w] == Idle
  }

  function Weight(w: Worker): nat {
    match w
    case Idle => 0
    case Taken(_) => 3
    case Holding(_, _) => 2
    case Finishing(_) => 1
  }

  /** How many steps the workers have before them. */
  function Work(s: State): nat
    requires |s.workers| == WORKERS
  {
    4 * |s.jobs| + Weight(s.workers[0]) + Weight(s.workers[1]) + Weight(s.workers[2]) + Weight(s.workers[3])
  }

  /** The same rooms, marks, moments and sockets. */
  ghost predicate SamePlaces(s: State, t: State) {
    && t.rooms.Keys == s.rooms.Keys
    && forall id :: id in s.rooms ==>
      && t.rooms[id].dirty == s.rooms[id].dirty && t.rooms[id].noticed == s.rooms[id].noticed
      && t.rooms[id].timeline == s.rooms[id].timeline && t.rooms[id].sockets.Keys == s.rooms[id].sockets.Keys
  }

  /** The next step of worker w. */
  function StepOf(worker: Worker, w: nat): Step {
    match worker
    case Idle => Take(w)
    case Taken(_) => Read(w, true)
    case Holding(_, _) => Deliver(w)
    case Finishing(_) => Finish(w)
  }

  /** A worker that has a step to take, if there is one, and otherwise the first. */
  function Busy(workers: seq<Worker>): (w: nat)
    requires |workers| == WORKERS
    ensures w < WORKERS
    ensures workers[w] == Idle ==> w == 0 && forall u :: 0 <= u < WORKERS ==> workers[u] == Idle
  {
    if workers[1] != Idle then 1 else if workers[2] != Idle then 2 else if workers[3] != Idle then 3 else 0
  }

  function NextStep(s: State): Step
    requires |s.workers| == WORKERS
  {
    StepOf(s.workers[Busy(s.workers)], Busy(s.workers))
  }

  lemma TakeWorks(s: State)
    requires Wellformed(s) && s.workers[0] == Idle && s.jobs != []
    ensures
      var t := After(s, Take(0));
      |t.workers| == WORKERS && Work(t) + 1 == Work(s) && SamePlaces(s, t)
  {
  }

  /** One worker moves on and places stay. */
  lemma MovedOn(s: State, t: State, w: nat)
    requires |s.workers| == WORKERS && w < WORKERS && t.jobs == s.jobs
    requires |t.workers| == WORKERS && t.workers == s.workers[w := t.workers[w]]
    requires Weight(t.workers[w]) + 1 == Weight(s.workers[w])
    ensures Work(t) + 1 == Work(s)
  {
    hide Weight;
  }

  lemma StageWorks(s: State, w: nat)
    requires Wellformed(s) && w < WORKERS && s.workers[w] != Idle
    ensures
      var t := After(s, StepOf(s.workers[w], w));
      |t.workers| == WORKERS && Work(t) + 1 == Work(s) && SamePlaces(s, t)
  {
    hide Delivered, Work, Admitted;
    if s.workers[w].Holding? {
      DeliveredPlaces(s.rooms[s.workers[w].id], s.workers[w].read);
    }
    MovedOn(s, After(s, StepOf(s.workers[w], w)), w);
  }

  lemma NextStepWorks(s: State)
    requires Wellformed(s) && !Quiet(s)
    ensures WorkerStep(NextStep(s)) && Fair(s, NextStep(s))
    ensures |s.workers| == |After(s, NextStep(s)).workers| == WORKERS && Work(After(s, NextStep(s))) + 1 == Work(s)
    ensures SamePlaces(s, After(s, NextStep(s)))
  {
    hide After, Work, SamePlaces, Busy;
    var w := Busy(s.workers);
    if s.workers[w] == Idle {
      TakeWorks(s);
    } else {
      StageWorks(s, w);
    }
  }

  lemma DeliveredPlaces(r: LiveRoom, read: Fetched)
    requires r.timeline != [] && read.moment < |r.timeline|
    ensures Delivered(r, read).sockets.Keys == r.sockets.Keys && Delivered(r, read).dirty == r.dirty
    ensures Delivered(r, read).noticed == r.noticed && Delivered(r, read).timeline == r.timeline
  {
    hide Offered;
  }

  /** Left alone, the workers come to rest. */
  lemma {:induction false} Settle(s: State) returns (steps: seq<Step>)
    requires Sound(s) && |s.workers| == WORKERS
    ensures FairRun(s, steps) && (forall x :: x in steps ==> WorkerStep(x))
    ensures Quiet(Run(s, steps)) && SamePlaces(s, Run(s, steps))
    decreases Work(s)
  {
    hide Sound, After, Fair, Quiet, Work, NextStep, WorkerStep;
    if Quiet(s) {
      steps := [];
      RunStarts(s);
    } else {
      SoundParts(s);
      NextStepWorks(s);
      var t := After(s, NextStep(s));
      StepKeepsSound(s, NextStep(s));
      var rest := Settle(t);
      steps := [NextStep(s)] + rest;
      assert steps[1..] == rest;
    }
  }

  /** A room at rest without a mark has everyone informed. */
  lemma RestIsInformed(s: State, id: Id, key: Id)
    requires Sound(s) && Quiet(s) && id in s.rooms && !s.rooms[id].dirty && key in s.rooms[id].sockets
    ensures Informed(s.rooms[id].sockets[key], s.rooms[id].noticed)
  {
    hide Informed, RoomTrue, OneOwner, RefreshingMeansOwned, ReadsTrue;
    assert NothingLost(s, id);
  }

  lemma RunsJoin(s: State, a: seq<Step>, b: seq<Step>)
    requires Sound(s) && FairRun(s, a)
    requires Sound(Run(s, a)) && FairRun(Run(s, a), b)
    ensures FairRun(s, a + b) && Run(s, a + b) == Run(Run(s, a), b)
    decreases |a|
  {
    hide Sound, After, Fair;
    if a == [] {
      assert a + b == b;
    } else {
      StepKeepsSound(s, a[0]);
      SoundParts(s);
      RunsJoin(After(s, a[0]), a[1..], b);
      assert (a + b)[1..] == a[1..] + b;
    }
  }

  /** From every reachable state ticks and workers can by themselves inform every socket
      of a room of everything it was notified of: nothing is stuck, whatever came before. */
  lemma EveryoneCanBeInformed(s: State, id: Id) returns (steps: seq<Step>)
    requires Sound(s) && id in s.rooms
    ensures FairRun(s, steps) && forall x :: x in steps ==> x.Tick? || WorkerStep(x)
    ensures SameRoom(s, Run(s, steps), id)
    ensures forall key :: key in s.rooms[id].sockets ==>
      UpToDate(Run(s, steps).rooms[id], Run(s, steps).rooms[id].sockets[key], s.rooms[id].noticed)
  {
    hide Sound, After, Run, FairRun, UpToDate, Informed, RoomTrue, WorkerStep;
    SoundParts(s);
    steps := Settle(s);
    RunKeepsSound(s, steps);
    var t := Run(s, steps);
    SoundParts(t);
    if t.rooms[id].dirty && t.rooms[id].sockets != map[] {
      TickStarts(t, id);
      RunAppend(s, steps, Tick(id));
      var ticked := steps + [Tick(id)];
      var u := After(t, Tick(id));
      RunKeepsSound(s, ticked);
      SoundParts(u);
      var more := Settle(u);
      RunsJoin(s, ticked, more);
      steps := ticked + more;
      RunKeepsSound(s, steps);
      t := Run(s, steps);
    }
    forall key | key in s.rooms[id].sockets
      ensures UpToDate(t.rooms[id], t.rooms[id].sockets[key], s.rooms[id].noticed)
    {
      assert key in t.rooms[id].sockets.Keys;
      RestIsInformed(t, id, key);
      RoomOf(t, id);
      InformedIsUpToDate(t.rooms[id], key, s.rooms[id].noticed);
    }
  }

  /** The room as it was but for its mark, its cache and what its sockets were offered. */
  ghost predicate SameRoom(s: State, t: State, id: Id)
    requires id in s.rooms
  {
    && id in t.rooms && t.rooms[id].noticed == s.rooms[id].noticed
    && t.rooms[id].timeline == s.rooms[id].timeline && t.rooms[id].sockets.Keys == s.rooms[id].sockets.Keys
  }

  /** A quiet hub serves a dirty room at the next tick. */
  lemma TickStarts(s: State, id: Id)
    requires Sound(s) && Quiet(s) && id in s.rooms && s.rooms[id].dirty && s.rooms[id].sockets != map[]
    ensures Fair(s, Tick(id)) && SameRoom(s, After(s, Tick(id)), id) && !After(s, Tick(id)).rooms[id].dirty
  {
    hide RoomTrue, ReadsTrue, AllInformed;
    assert !Owned(s, id);
  }

  // ---------- What a notification leads to ----------

  /** What a socket of this epoch is told of a public state. */
  function TellOf(p: Public, epoch: Id): Message {
    if p.epoch == epoch then Standings(p) else ResetRequired
  }

  /** A delivery puts one message in each queue, in place of any other: word of a failed read,
      or what the socket's epoch is to be told of the state that was read. What was read is
      kept as the latest encoding, what failed is not. */
  lemma DeliveryTells(r: LiveRoom, key: Id, read: Fetched)
    requires RoomTrue(r) && key in r.sockets && read.moment < |r.timeline|
    ensures
      var socket, d := r.sockets[key], Delivered(r, read);
      var message := if read.ok then TellOf(r.timeline[read.moment], socket.epoch) else Unavailable;
      && d.sockets.Keys == r.sockets.Keys
      && d.latest == (if read.ok then Some(r.timeline[read.moment]) else r.latest)
      && d.sockets[key] == Socket(socket.pid, socket.epoch, Some(message),
                                  socket.offered + [Offer(message, read.moment)])
  {
    hide RoomTrue, Encoded;
    RoomHasTimeline(r);
    CacheIsFresh(r, read.moment);
  }

  lemma RoomHasTimeline(r: LiveRoom)
    requires RoomTrue(r)
    ensures r.timeline != []
  {
    hide OffersTrue;
  }

  /** Everyone in the room was last told the same of its last public state, as their epochs have
      it, and finds it in their queue. */
  ghost predicate AllTold(r: LiveRoom) {
    && r.timeline != []
    && forall key :: key in r.sockets ==>
         && r.sockets[key].offered != []
         && r.sockets[key].offered[|r.sockets[key].offered| - 1].message
              == TellOf(r.timeline[|r.timeline| - 1], r.sockets[key].epoch)
         && r.sockets[key].queue == Some(TellOf(r.timeline[|r.timeline| - 1], r.sockets[key].epoch))
  }

  lemma DeliveryTellsAll(r: LiveRoom)
    requires RoomTrue(r) && r.timeline != []
    ensures AllTold(Delivered(r, Fetched(true, |r.timeline| - 1)))
    ensures Delivered(r, Fetched(true, |r.timeline| - 1)).timeline == r.timeline
  {
    hide RoomTrue, Encoded;
    var read := Fetched(true, |r.timeline| - 1);
    forall key | key in Delivered(r, read).sockets
      ensures
        var t := Delivered(r, read).sockets[key];
        && t.offered != [] && t.queue == Some(t.offered[|t.offered| - 1].message)
        && t.offered[|t.offered| - 1].message == TellOf(r.timeline[|r.timeline| - 1], t.epoch)
    {
      DeliveryTells(r, key, read);
    }
  }

  /** The first worker takes a job. */
  lemma TakesJob(s: State, id: Id)
    requires Wellformed(s) && s.jobs == [id] && s.workers[0] == Idle
    ensures After(s, Take(0)) == s.(jobs := [], workers := s.workers[0 := Taken(id)])
  {
  }

  lemma ReadsRoom(s: State, id: Id)
    requires Wellformed(s) && s.workers[0] == Taken(id) && id in s.rooms
    ensures After(s, Read(0, true))
      == s.(workers := s.workers[0 := Holding(id, Fetched(true, |s.rooms[id].timeline| - 1))])
  {
  }

  lemma DeliversRead(s: State, id: Id, read: Fetched)
    requires Wellformed(s) && s.workers[0] == Holding(id, read) && id in s.rooms
    requires s.rooms[id].timeline != [] && read.moment < |s.rooms[id].timeline|
    ensures After(s, Deliver(0))
      == s.(workers := s.workers[0 := Finishing(id)], rooms := s.rooms[id := Delivered(s.rooms[id], read)])
  {
    hide Delivered;
  }

  /** One worker takes the only job, reads, and delivers. */
  lemma WorkerTells(s: State, id: Id) returns (steps: seq<Step>)
    requires Sound(s) && s.jobs == [id] && id in s.rooms && |s.workers| == WORKERS && s.workers[0] == Idle
    ensures FairRun(s, steps) && forall x :: x in steps ==> WorkerStep(x)
    ensures id in Run(s, steps).rooms && AllTold(Run(s, steps).rooms[id])
    ensures Run(s, steps).rooms[id].timeline == s.rooms[id].timeline
    ensures SamePlaces(s, Run(s, steps))
  {
    hide Sound, AllTold, Delivered, FairRun, Run, After, Wellformed;
    SoundParts(s);
    RoomOf(s, id);
    RoomHasTimeline(s.rooms[id]);
    RunStarts(s);
    steps := [];
    RunAppend(s, steps, Take(0));
    TakesJob(s, id);
    steps := steps + [Take(0)];
    RunKeepsSound(s, steps);
    SoundParts(Run(s, steps));
    ReadsRoom(Run(s, steps), id);
    RunAppend(s, steps, Read(0, true));
    steps := steps + [Read(0, true)];
    RunKeepsSound(s, steps);
    SoundParts(Run(s, steps));
    DeliversRead(Run(s, steps), id, Fetched(true, |s.rooms[id].timeline| - 1));
    RunAppend(s, steps, Deliver(0));
    steps := steps + [Deliver(0)];
    DeliveryTellsAll(s.rooms[id]);
    DeliveredPlaces(s.rooms[id], Fetched(true, |s.rooms[id].timeline| - 1));
  }

  /** From every reachable state a notification can be followed by ticks and steps of the
      workers alone after which every socket of the room has been told of its last public
      state: the standings, or to reset if the socket's epoch is over. */
  lemma NotifiedCanBeTold(s: State, id: Id) returns (steps: seq<Step>)
    requires Sound(s) && id in s.rooms && s.rooms[id].sockets != map[]
    ensures Sound(After(s, Notify(id))) && FairRun(After(s, Notify(id)), steps)
    ensures forall x :: x in steps ==> x.Tick? || WorkerStep(x)
    ensures
      var t := Run(After(s, Notify(id)), steps);
      && id in t.rooms && t.rooms[id].timeline == s.rooms[id].timeline && AllTold(t.rooms[id])
      && t.rooms[id].sockets.Keys == s.rooms[id].sockets.Keys
  {
    hide Sound, AllTold, FairRun, Run, Quiet;
    SoundParts(s);
    StepKeepsSound(s, Notify(id));
    var n := After(s, Notify(id));
    SoundParts(n);
    var first := Settle(n);
    RunKeepsSound(n, first);
    var t := Run(n, first);
    SoundParts(t);
    TickStarts(t, id);
    RunAppend(n, first, Tick(id));
    var u := After(t, Tick(id));
    RunKeepsSound(n, first + [Tick(id)]);
    TickedHasJob(t, id);
    var more := WorkerTells(u, id);
    RunsJoin(n, first + [Tick(id)], more);
    steps := first + [Tick(id)] + more;
  }

  lemma TickedHasJob(s: State, id: Id)
    requires Sound(s) && Quiet(s) && id in s.rooms && s.rooms[id].dirty && s.rooms[id].sockets != map[]
    ensures
      var u := After(s, Tick(id));
      && u.jobs == [id] && |u.workers| == WORKERS && u.workers[0] == Idle && id in u.rooms
      && u.rooms[id].timeline == s.rooms[id].timeline && u.rooms[id].sockets == s.rooms[id].sockets
  {
    hide Hub.Rooms, ReadsTrue, AllInformed;
    assert !Owned(s, id);
  }

  /** Rooms are served in the order in which they were queued: whichever worker takes a job, it
      is the oldest, and every other moves up by one place. */
  lemma OldestJobIsTaken(s: State, w: nat, i: nat)
    requires Wellformed(s) && w < WORKERS && s.workers[w] == Idle && i < |s.jobs|
    ensures
      var t := After(s, Take(w));
      && |t.jobs| == |s.jobs| - 1 && t.rooms == s.rooms
      && (i == 0 ==> t.workers[w] == Taken(s.jobs[0]))
      && (i > 0 ==> t.jobs[i - 1] == s.jobs[i])
  {
  }

  // ---------- Sockets that come ----------

  /** The sockets a room has before a socket comes, and its timeline. */
  function SocketsAt(s: State, id: Id): map<Id, Socket> {
    if id in s.rooms then s.rooms[id].sockets else map[]
  }

  predicate MayCome(s: State, step: Step)
    requires step.Register?
  {
    && !s.closed && (step.id in s.rooms || |s.rooms| < step.limit)
    && |SocketsAt(s, step.id)| < 800 && SocketsOf(SocketsAt(s, step.id), step.pid) < 4
  }

  lemma AdmittedExactly(s: State, step: Step)
    requires Wellformed(s) && step.Register? && step.timeline != []
    ensures Admitted(s, step).Some? <==> MayCome(s, step)
    ensures Admitted(s, step).Some? ==>
      var r := Admitted(s, step).value;
      && r.sockets == SocketsAt(s, step.id)[step.key := Socket(step.pid, step.epoch, None, [])] && r.dirty
      && r.timeline == (if step.id in s.rooms then s.rooms[step.id].timeline else step.timeline)
      && r.noticed == |r.timeline| - 1
  {
    hide Belonging, SocketsOf;
    NoSockets(step.pid);
  }

  /** A socket that comes is taken exactly when the hub is open, the room is there or there is
      room for one more, and neither the room's nor the person's limit is reached. */
  lemma SocketIsTakenExactly(s: State, step: Step)
    requires Wellformed(s) && step.Register? && step.timeline != []
    requires step.key !in SocketsAt(s, step.id)
    ensures
      var t := After(s, step);
      if MayCome(s, step) then
        && t.rooms.Keys == s.rooms.Keys + {step.id} && t.rooms[step.id].dirty
        && t.rooms[step.id].sockets
             == SocketsAt(s, step.id)[step.key := Socket(step.pid, step.epoch, None, [])]
        && t.rooms[step.id].timeline == (if step.id in s.rooms then s.rooms[step.id].timeline else step.timeline)
        && t.rooms[step.id].noticed == |t.rooms[step.id].timeline| - 1
      else t == s
  {
    hide Admitted, MayCome;
    AdmittedExactly(s, step);
  }

  /** A socket that goes frees its place in the room and its person's, and no other's. */
  lemma GoingFreesPlace(s: State, id: Id, key: Id, pid: Id)
    requires Wellformed(s) && id in s.rooms && key in s.rooms[id].sockets
    ensures
      var was, left := s.rooms[id].sockets, After(s, Unregister(id, key)).rooms[id].sockets;
      && key !in left && was == left[key := was[key]] && |left| == |was| - 1
      && SocketsOf(left, pid) == SocketsOf(was, pid) - (if was[key].pid == pid then 1 else 0)
  {
    hide Belonging;
    var was, left := s.rooms[id].sockets, After(s, Unregister(id, key)).rooms[id].sockets;
    assert was == left[key := was[key]];
    OneMoreSocket(left, key, was[key], pid);
    assert was.Keys == left.Keys + {key};
    assert |was.Keys| == |was| && |left.Keys| == |left|;
  }

  // ---------- Reset notices for newcomers ----------

  /** Exactly when a delivery tells a socket of the room's current epoch to reset: when
      the read that it delivers succeeded and was made before the room came to that epoch. */
  lemma NewcomerIsResetExactly(r: LiveRoom, key: Id, read: Fetched)
    requires RoomTrue(r) && key in r.sockets && read.moment < |r.timeline|
    requires r.sockets[key].epoch == r.timeline[|r.timeline| - 1].epoch
    ensures
      var socket := Delivered(r, read).sockets[key];
      && socket.offered != []
      && (socket.offered[|socket.offered| - 1].message.ResetRequired? <==>
            read.ok && forall k :: 0 <= k <= read.moment ==> r.timeline[k].epoch != socket.epoch)
  {
    hide Versioned, OffersTrue, Encoded;
  }

  /** A hub of one room, with nobody there. */
  function OneRoom(id: Id, p: Public): State {
    State(map[id := LiveRoom(map[], false, false, None, [p], 0)], [], [Idle, Idle, Idle, Idle], false)
  }

  lemma OneRoomIsSound(id: Id, p: Public)
    ensures Sound(OneRoom(id, p))
  {
    hide RoomTrue;
    OpenedTrue([p]);
    assert forall x :: !Owned(OneRoom(id, p), x);
  }

  /** A worker reads, the room is reset, a socket comes for the new epoch, and the worker
      delivers what it read. */
  function Newcomer(id: Id, stale: Public, renewed: Public, pid: Id): seq<Step> {
    [Register(id, 1, pid, stale.epoch, [stale], 1), Tick(id), Take(0), Read(0, true), Commit(id, renewed),
     Register(id, 2, pid, renewed.epoch, [renewed], 1), Deliver(0)]
  }

  /** The hub after the first n of these steps. */
  function Stage(id: Id, stale: Public, renewed: Public, pid: Id, n: nat): State {
    var one := map[1 := Socket(pid, stale.epoch, None, [])];
    var two := one[2 := Socket(pid, renewed.epoch, None, [])];
    var idle := [Idle, Idle, Idle, Idle];
    match n
    case 0 => OneRoom(id, stale)
    case 1 => State(map[id := LiveRoom(one, true, false, None, [stale], 0)], [], idle, false)
    case 2 => State(map[id := LiveRoom(one, false, true, None, [stale], 0)], [id], idle, false)
    case 3 => State(map[id := LiveRoom(one, false, true, None, [stale], 0)], [], idle[0 := Taken(id)], false)
    case 4 =>
      State(map[id := LiveRoom(one, false, true, None, [stale], 0)], [], idle[0 := Holding(id, Fetched(true, 0))],
        false)
    case 5 =>
      State(map[id := LiveRoom(one, false, true, None, [stale, renewed], 0)], [],
        idle[0 := Holding(id, Fetched(true, 0))], false)
    case _ =>
      State(map[id := LiveRoom(two, true, true, None, [stale, renewed], 1)], [],
        idle[0 := Holding(id, Fetched(true, 0))], false)
  }

  /** The steps at which a socket comes. */
  lemma SocketStage(id: Id, stale: Public, renewed: Public, pid: Id, n: nat)
    requires stale.epoch != renewed.epoch && (n == 0 || n == 5)
    requires Wellformed(Stage(id, stale, renewed, pid, n))
    ensures
      var s, step := Stage(id, stale, renewed, pid, n), Newcomer(id, stale, renewed, pid)[n];
      Fair(s, step) && After(s, step) == Stage(id, stale, renewed, pid, n + 1)
  {
    hide SocketsOf;
    NoSockets(pid);
    OneMoreSocket(map[], 1, Socket(pid, stale.epoch, None, []), pid);
    assert After(Stage(id, stale, renewed, pid, n), Newcomer(id, stale, renewed, pid)[n]).rooms
      == Stage(id, stale, renewed, pid, n + 1).rooms;
  }

  lemma StageStep(id: Id, stale: Public, renewed: Public, pid: Id, n: nat)
    requires stale.epoch != renewed.epoch && n < 6
    requires Wellformed(Stage(id, stale, renewed, pid, n))
    ensures
      var s, step := Stage(id, stale, renewed, pid, n), Newcomer(id, stale, renewed, pid)[n];
      Fair(s, step) && After(s, step) == Stage(id, stale, renewed, pid, n + 1)
  {
    hide SocketsOf, Admitted;
    var s, step, t := Stage(id, stale, renewed, pid, n), Newcomer(id, stale, renewed, pid)[n],
      Stage(id, stale, renewed, pid, n + 1);
    if n == 0 || n == 5 {
      SocketStage(id, stale, renewed, pid, n);
    } else if n == 1 {
      assert 1 in s.rooms[id].sockets;
      assert After(s, step).rooms == t.rooms && After(s, step).jobs == t.jobs;
    } else if n == 2 {
      assert After(s, step).jobs == t.jobs;
    } else if n == 3 {
      assert After(s, step).workers == t.workers;
    } else {
      assert [stale] + [renewed] == [stale, renewed];
      assert After(s, step).rooms == t.rooms;
    }
  }

  lemma Stages(id: Id, stale: Public, renewed: Public, pid: Id, n: nat)
    requires stale.epoch != renewed.epoch && n <= 6
    ensures Sound(OneRoom(id, stale)) && FairRun(OneRoom(id, stale), Newcomer(id, stale, renewed, pid)[..n])
    ensures Run(OneRoom(id, stale), Newcomer(id, stale, renewed, pid)[..n]) == Stage(id, stale, renewed, pid, n)
  {
    hide Sound, Run, FairRun, Fair, After;
    OneRoomIsSound(id, stale);
    var s, steps := OneRoom(id, stale), Newcomer(id, stale, renewed, pid);
    RunStarts(s);
    assert steps[..0] == [];
    for k := 0 to n
      invariant FairRun(s, steps[..k]) && Run(s, steps[..k]) == Stage(id, stale, renewed, pid, k)
    {
      assert steps[..k + 1] == steps[..k] + [steps[k]];
      RunKeepsSound(s, steps[..k]);
      SoundParts(Stage(id, stale, renewed, pid, k));
      StageStep(id, stale, renewed, pid, k);
      RunAppend(s, steps[..k], steps[k]);
    }
  }

  /** Such a run, for any two epochs: the socket of the current epoch is told to reset. */
  lemma NewcomerIsReset(id: Id, stale: Public, renewed: Public, pid: Id)
    requires stale.epoch != renewed.epoch
    ensures Sound(OneRoom(id, stale)) && FairRun(OneRoom(id, stale), Newcomer(id, stale, renewed, pid))
    ensures
      var t := Run(OneRoom(id, stale), Newcomer(id, stale, renewed, pid));
      && id in t.rooms && 2 in t.rooms[id].sockets && t.rooms[id].timeline == [stale, renewed]
      && t.rooms[id].sockets[2].epoch == renewed.epoch
      && t.rooms[id].sockets[2].offered == [Offer(ResetRequired, 0)]
  {
    hide Sound, Run, FairRun;
    var s, steps := OneRoom(id, stale), Newcomer(id, stale, renewed, pid);
    Stages(id, stale, renewed, pid, 6);
    RunKeepsSound(s, steps[..6]);
    SoundParts(Run(s, steps[..6]));
    assert steps == steps[..6] + [steps[6]];
    RunAppend(s, steps[..6], steps[6]);
  }
}
