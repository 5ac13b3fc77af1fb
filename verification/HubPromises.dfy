/** What subscribers get, over whole runs of the hub. */
module HubPromises {
  import opened Domain
  import opened Store
  import opened Hub
  import opened HubSteps
  import Rooms = Room
  import RoomInvariant
  import RoomRuns
  import EndToEnd

  // ---------- Runs ----------

  ghost predicate FairRun(s: State, steps: seq<Step>)
    requires Sound(s)
    decreases |steps|
  {
    steps == [] || (
      && Fair(s, steps[0])
      && (StepKeepsSound(s, steps[0]);
          SoundParts(s);
          FairRun(After(s, steps[0]), steps[1..])))
  }

  /** The state after a run: any steps in any order. */
  ghost function Run(s: State, steps: seq<Step>): State
    requires Sound(s) && FairRun(s, steps)
    decreases |steps|
  {
    if steps == [] then s
    else
      StepKeepsSound(s, steps[0]);
      SoundParts(s);
      Run(After(s, steps[0]), steps[1..])
  }

  lemma {:induction false} RunKeepsSound(s: State, steps: seq<Step>)
    requires Sound(s) && FairRun(s, steps)
    ensures Sound(Run(s, steps))
    decreases |steps|
  {
    hide Sound, After, Fair;
    SoundParts(s);
    if steps != [] {
      StepKeepsSound(s, steps[0]);
      RunKeepsSound(After(s, steps[0]), steps[1..]);
    }
  }

  lemma RunStarts(s: State)
    requires Sound(s)
    ensures FairRun(s, []) && Run(s, []) == s
  {
  }

  lemma {:induction false} RunAppend(s: State, steps: seq<Step>, step: Step)
    requires Sound(s) && FairRun(s, steps) && Fair(Run(s, steps), step)
    ensures Sound(Run(s, steps)) && FairRun(s, steps + [step])
    ensures Run(s, steps + [step]) == After(Run(s, steps), step)
    decreases |steps|
  {
    hide Sound, After, Fair;
    RunKeepsSound(s, steps);
    if steps == [] {
      StepKeepsSound(s, step);
      SoundParts(s);
      SoundParts(After(s, step));
      assert (steps + [step])[1..] == [];
    } else {
      StepKeepsSound(s, steps[0]);
      SoundParts(s);
      RunAppend(After(s, steps[0]), steps[1..], step);
      assert (steps + [step])[1..] == steps[1..] + [step];
    }
  }

  /** A room is never removed, its timeline only grows and notifications only advance. */
  ghost predicate Continues(s: State, t: State, id: Id) {
    id in s.rooms ==>
      && id in t.rooms && s.rooms[id].noticed <= t.rooms[id].noticed
      && s.rooms[id].timeline <= t.rooms[id].timeline
  }

  lemma StepContinues(s: State, step: Step, id: Id)
    requires Sound(s)
    ensures Continues(s, After(s, step), id)
  {
    hide OneOwner, RefreshingMeansOwned, ReadsTrue, AllInformed, Steady, OffersTrue, SocketsOf;
    if id in s.rooms {
      assert RoomTrue(s.rooms[id]);
    }
  }

  lemma {:induction false} RunContinues(s: State, steps: seq<Step>, id: Id)
    requires Sound(s) && FairRun(s, steps)
    ensures Continues(s, Run(s, steps), id)
    decreases |steps|
  {
    hide Sound, After, Fair;
    SoundParts(s);
    if steps != [] {
      StepKeepsSound(s, steps[0]);
      StepContinues(s, steps[0], id);
      RunContinues(After(s, steps[0]), steps[1..], id);
    }
  }

  // ---------- No update is lost ----------

  /** What a socket that is informed of a moment was last offered: standings of its epoch
      that were the room's at that moment or later; a reset notice, because the room was
      then or later of another epoch; or word that it could not be read then or later. */
  ghost predicate UpToDate(r: LiveRoom, socket: Socket, moment: nat) {
    && socket.offered != []
    && var o := socket.offered[|socket.offered| - 1];
    match o.message
    case Standings(p) =>
      p.epoch == socket.epoch && exists k :: moment <= k < |r.timeline| && r.timeline[k] == p
    case ResetRequired => exists k :: moment <= k < |r.timeline| && r.timeline[k].epoch != socket.epoch
    case Unavailable => moment <= o.moment < |r.timeline|
  }

  lemma InformedIsUpToDate(r: LiveRoom, key: Id, moment: nat)
    requires RoomTrue(r) && key in r.sockets && Informed(r.sockets[key], moment)
    ensures UpToDate(r, r.sockets[key], moment)
  {
    hide Steady;
    assert OffersTrue(r, r.sockets[key]);
    var o := r.sockets[key].offered[|r.sockets[key].offered| - 1];
    assert moment <= o.moment < |r.timeline|;
  }

  /** A refresh is on its way that has yet to read, or that has read the moment's state or
      a later one, or found that it cannot be read. */
  ghost predicate ComingWith(s: State, id: Id, moment: nat) {
    id in s.jobs || exists w :: 0 <= w < |s.workers| && Brings(s.workers[w], id, moment)
  }

  ghost predicate Brings(w: Worker, id: Id, moment: nat) {
    w == Taken(id) || (w.Holding? && w.id == id && moment <= w.read.moment)
  }

  lemma ComingCovers(s: State, id: Id, moment: nat)
    requires Sound(s) && id in s.rooms && Coming(s, id) && !s.rooms[id].dirty && moment <= s.rooms[id].noticed
    ensures ComingWith(s, id, moment)
  {
    hide RoomTrue, Informed, OneOwner, RefreshingMeansOwned;
    if id !in s.jobs {
      var w :| 0 <= w < |s.workers| && (s.workers[w] == Taken(id) || (s.workers[w].Holding? && s.workers[w].id == id));
      assert Brings(s.workers[w], id, moment);
    }
  }

  /** After a notification, and whatever happens next in whatever order, each socket of
      the room is up to date with it unless the room is dirty or a refresh that covers it
      is coming. */
  lemma NotificationIsNotLost(s: State, id: Id, steps: seq<Step>, key: Id)
    requires Sound(s) && id in s.rooms && FairRun(s, steps) && steps != [] && steps[0] == Notify(id)
    ensures
      var moment, t := |s.rooms[id].timeline| - 1, Run(s, steps);
      && id in t.rooms && 0 <= moment < |t.rooms[id].timeline|
      && (key in t.rooms[id].sockets ==>
            t.rooms[id].dirty || ComingWith(t, id, moment) || UpToDate(t.rooms[id], t.rooms[id].sockets[key], moment))
  {
    hide Sound, After, RoomTrue, Coming, Informed, UpToDate, ComingWith;
    SoundParts(s);
    var n := After(s, Notify(id));
    StepKeepsSound(s, steps[0]);
    RoomOf(s, id);
    NotifyNotices(s, id);
    RunKeepsSound(n, steps[1..]);
    RunContinues(n, steps[1..], id);
    var t, moment := Run(n, steps[1..]), |s.rooms[id].timeline| - 1;
    var r := t.rooms[id];
    RoomOf(t, id);
    if key in r.sockets && !r.dirty {
      if Coming(t, id) {
        ComingCovers(t, id, moment);
      } else {
        EarlierToo(r.sockets[key], r.noticed, moment);
        InformedIsUpToDate(r, key, moment);
      }
    }
  }

  /** A socket whose epoch had ended by the moment it is up to date with was last told to
      reset, or that the room cannot be read. */
  lemma EndedEpochIsTold(r: LiveRoom, key: Id, i: nat, moment: nat)
    requires RoomTrue(r) && key in r.sockets && UpToDate(r, r.sockets[key], moment) && i <= moment < |r.timeline|
    requires r.timeline[i].epoch == r.sockets[key].epoch != r.timeline[moment].epoch
    ensures
      var offered := r.sockets[key].offered;
      offered != [] && !offered[|offered| - 1].message.Standings?
  {
    hide Versioned, OffersTrue;
  }

  /** After the notification of a reset, and whatever happens next, each socket of an epoch
      that is over was last told so, or that the room cannot be read, unless the room is
      dirty or a refresh that covers the reset is coming. */
  lemma ResetIsTold(s: State, id: Id, steps: seq<Step>, key: Id, i: nat)
    requires Sound(s) && id in s.rooms && FairRun(s, steps) && steps != [] && steps[0] == Notify(id)
    requires i < |s.rooms[id].timeline|
    requires
      var t := Run(s, steps);
      id in t.rooms && key in t.rooms[id].sockets
      && var timeline := s.rooms[id].timeline;
      timeline[i].epoch == t.rooms[id].sockets[key].epoch != timeline[|timeline| - 1].epoch
    ensures
      var t, moment := Run(s, steps), |s.rooms[id].timeline| - 1;
      var offered := t.rooms[id].sockets[key].offered;
      t.rooms[id].dirty || ComingWith(t, id, moment) || (offered != [] && !offered[|offered| - 1].message.Standings?)
  {
    hide Sound, After, RoomTrue, UpToDate, ComingWith, Run, FairRun;
    var t, moment := Run(s, steps), |s.rooms[id].timeline| - 1;
    NotificationIsNotLost(s, id, steps, key);
    RunContinues(s, steps, id);
    RunKeepsSound(s, steps);
    RoomOf(t, id);
    if UpToDate(t.rooms[id], t.rooms[id].sockets[key], moment) {
      EndedEpochIsTold(t.rooms[id], key, i, moment);
    }
  }

  lemma NotifyNotices(s: State, id: Id)
    requires Wellformed(s) && id in s.rooms
    ensures id in After(s, Notify(id)).rooms
    ensures After(s, Notify(id)).rooms[id].noticed == |s.rooms[id].timeline| - 1
    ensures After(s, Notify(id)).rooms[id].timeline == s.rooms[id].timeline != []
  {
  }

  lemma EarlierToo(socket: Socket, later: nat, earlier: nat)
    requires Informed(socket, later) && earlier <= later
    ensures Informed(socket, earlier)
  {
  }

  /** A socket is offered standings of its own epoch only, with versions that never drop. */
  lemma VersionsNeverDrop(s: State, id: Id, key: Id, i: nat, j: nat)
    requires Sound(s) && id in s.rooms && key in s.rooms[id].sockets
    requires i < j < |s.rooms[id].sockets[key].offered|
    requires s.rooms[id].sockets[key].offered[i].message.Standings?
    requires s.rooms[id].sockets[key].offered[j].message.Standings?
    ensures
      var socket := s.rooms[id].sockets[key];
      var a, b := socket.offered[i].message.public, socket.offered[j].message.public;
      a.epoch == socket.epoch == b.epoch && a.version <= b.version
  {
    hide Sound;
    RoomOf(s, id);
    assert OffersTrue(s.rooms[id], s.rooms[id].sockets[key]);
  }

  // ---------- At most four sockets a person ----------

  lemma FewerSockets(a: map<Id, Socket>, b: map<Id, Socket>, pid: Id)
    requires forall key :: key in a ==> key in b && b[key].pid == a[key].pid
    ensures SocketsOf(a, pid) <= SocketsOf(b, pid)
  {
    Included(Belonging(a, pid), Belonging(b, pid));
  }

  lemma Included(x: set<Id>, y: set<Id>)
    requires x <= y
    ensures |x| <= |y|
  {
    assert y == x + (y - x);
  }

  lemma OneMoreSocket(a: map<Id, Socket>, key: Id, socket: Socket, pid: Id)
    requires key !in a
    ensures SocketsOf(a[key := socket], pid) == SocketsOf(a, pid) + (if socket.pid == pid then 1 else 0)
  {
    var x := Belonging(a, pid);
    assert Belonging(a[key := socket], pid) == if socket.pid == pid then x + {key} else x;
  }

  ghost predicate AllPerPerson(s: State) {
    forall id {:trigger PerPerson(s.rooms[id])} :: id in s.rooms ==> PerPerson(s.rooms[id])
  }

  /** No step gives one person a fifth socket in a room. */
  lemma StepKeepsPerPerson(s: State, step: Step)
    requires Wellformed(s) && AllPerPerson(s)
    ensures AllPerPerson(After(s, step))
  {
    hide SocketsOf;
    forall id | id in After(s, step).rooms
      ensures PerPerson(After(s, step).rooms[id])
    {
      var r' := After(s, step).rooms[id];
      forall pid
        ensures SocketsOf(r'.sockets, pid) <= PER_PERSON
      {
        RoomPerPerson(s, step, id, pid);
      }
    }
  }

  lemma RoomPerPerson(s: State, step: Step, id: Id, pid: Id)
    requires Wellformed(s) && AllPerPerson(s) && id in After(s, step).rooms
    ensures SocketsOf(After(s, step).rooms[id].sockets, pid) <= PER_PERSON
  {
    hide SocketsOf;
    var t := After(s, step);
    if id in s.rooms {
      assert PerPerson(s.rooms[id]);
      if step.Register? && step.id == id && t != s {
        OneMoreSocket(s.rooms[id].sockets, step.key, Socket(step.pid, step.epoch, None, []), pid);
      } else {
        assert forall key :: key in t.rooms[id].sockets ==>
            key in s.rooms[id].sockets && s.rooms[id].sockets[key].pid == t.rooms[id].sockets[key].pid;
        FewerSockets(t.rooms[id].sockets, s.rooms[id].sockets, pid);
      }
    } else {
      assert step.Register? && step.id == id;
      NoSockets(pid);
      OneMoreSocket(map[], step.key, Socket(step.pid, step.epoch, None, []), pid);
    }
  }

  lemma NoSockets(pid: Id)
    ensures SocketsOf(map[], pid) == 0
  {
    assert Belonging(map[], pid) == {};
  }

  // ---------- The room behind it ----------

  /** The public states of a room at increasing moments of a lawful run are a steady
      timeline: this is what makes the cached encoding safe to send again. */
  lemma TimelineIsSteady(q: Quiz, events: seq<RoomRuns.Event>, ks: seq<nat>, timeline: seq<Public>)
    requires EndToEnd.Lawful(q, events) && |ks| == |timeline|
    requires forall i, j :: 0 <= i <= j < |ks| ==> ks[i] <= ks[j]
    requires forall i :: 0 <= i < |ks| ==> EndToEnd.SaysPublic(q, events, ks[i], timeline[i])
    ensures Steady(timeline)
  {
    hide EndToEnd.Lawful, EndToEnd.SaysPublic;
    forall i, j | 0 <= i <= j < |timeline| && timeline[i].epoch == timeline[j].epoch
      ensures timeline[i].version <= timeline[j].version
      ensures timeline[i].version == timeline[j].version ==> timeline[i] == timeline[j]
    {
      PairIsSteady(q, events, ks[i], ks[j], timeline[i], timeline[j]);
    }
    forall i, j, k | 0 <= i <= j <= k < |timeline| && timeline[i].epoch == timeline[k].epoch
      ensures timeline[j].epoch == timeline[i].epoch
    {
      BetweenIsSame(q, events, ks[i], ks[j], ks[k], timeline[i], timeline[j], timeline[k]);
    }
  }

  lemma BetweenIsSame(q: Quiz, events: seq<RoomRuns.Event>, i: nat, j: nat, k: nat, a: Public, b: Public, c: Public)
    requires EndToEnd.Lawful(q, events) && i <= j <= k
    requires EndToEnd.SaysPublic(q, events, i, a) && EndToEnd.SaysPublic(q, events, j, b)
      && EndToEnd.SaysPublic(q, events, k, c)
    requires a.epoch == c.epoch
    ensures b.epoch == a.epoch
  {
    hide LiveQuiz, RoomRuns.Proper, RoomRuns.FreshEpochs, RoomRuns.Before;
    RoomRuns.EpochStays(q, EndToEnd.Blank(), events, i, j, k);
  }

  lemma PairIsSteady(q: Quiz, events: seq<RoomRuns.Event>, i: nat, j: nat, a: Public, b: Public)
    requires EndToEnd.Lawful(q, events) && i <= j
    requires EndToEnd.SaysPublic(q, events, i, a) && EndToEnd.SaysPublic(q, events, j, b) && a.epoch == b.epoch
    ensures a.version <= b.version && (a.version == b.version ==> a == b)
  {
    hide LiveQuiz, RoomRuns.Proper, RoomRuns.FreshEpochs, RoomRuns.Before;
    hide RoomRuns.Includes;
    RoomRuns.SameEpochExtends(q, EndToEnd.Blank(), events, i, j);
    var s, t := EndToEnd.RoomAt(q, events, i), EndToEnd.RoomAt(q, events, j);
  }
}
