/** The hub's critical sections as the program has them: an object whose room fields, job
    channel and one-place queues the methods change. A method is one section under the
    mutex, or one channel operation; module Hub says what a step does. */
module HubMachine {
  import opened Domain
  import opened Store
  import opened Hub
  import opened HubSteps

  /** Putting a message in a one-place queue: a send; when the place is taken a receive
      that discards, and a second send. Senders hold the mutex, so only the reader can
      come between (`read`). The new message always gets in, and the old one is either
      read or dropped. */
  method OfferTo(queue: Option<Message>, next: Message, read: bool)
    returns (now: Option<Message>, seen: Option<Message>, dropped: bool)
    ensures now == Some(next)
    ensures seen == if read then queue else None
    ensures dropped <==> queue.Some? && !read
  {
    now, seen, dropped := queue, None, false;
    if now.None? {
      return Some(next), None, false;
    }
    if read {
      now, seen := None, now;
    }
    if now.Some? {
      now, dropped := None, true;
    }
    if now.None? {
      now := Some(next);
    }
  }

  lemma NotifyEffect(s: State, id: Id)
    requires Wellformed(s) && id in s.rooms
    ensures After(s, Notify(id)) == s.(rooms := s.rooms[id := Noticed(s.rooms[id])])
  {
  }

  /** The rooms as they were, marked but for the rest. */
  ghost predicate MarkedBut(before: map<Id, LiveRoom>, now: map<Id, LiveRoom>, rest: set<Id>) {
    && now.Keys == before.Keys
    && forall id :: id in before ==>
      before[id].timeline != [] && now[id] == if id in rest then before[id] else Noticed(before[id])
  }

  lemma NoneMarked(s: State)
    requires Wellformed(s)
    ensures MarkedBut(s.rooms, s.rooms, s.rooms.Keys)
  {
  }

  lemma OneMoreMarked(before: map<Id, LiveRoom>, now: map<Id, LiveRoom>, rest: set<Id>, id: Id)
    requires MarkedBut(before, now, rest) && id in rest && id in before
    ensures id in now && now[id].timeline != [] && MarkedBut(before, now[id := Noticed(now[id])], rest - {id})
  {
    hide Noticed;
  }

  class Machine {
    var rooms: map<Id, LiveRoom>
    var jobs: seq<Id>
    var workers: seq<Worker>
    var closed: bool

    ghost function Now(): State
      reads this
    {
      State(rooms, jobs, workers, closed)
    }

    constructor (served: map<Id, LiveRoom>)
      requires forall id :: id in served ==>
        served[id].sockets == map[] && !served[id].dirty && !served[id].refreshing && served[id].latest.None?
        && served[id].timeline != [] && Steady(served[id].timeline) && served[id].noticed < |served[id].timeline|
      ensures Now() == State(served, [], [Idle, Idle, Idle, Idle], false) && Sound(Now())
    {
      rooms := served;
      jobs := [];
      workers := [Idle, Idle, Idle, Idle];
      closed := false;
    }

    method Dirty(id: Id)
      requires Sound(Now())
      modifies this
      ensures Now() == After(old(Now()), Notify(id)) && Sound(Now())
    {
      hide Sound;
      SoundParts(Now());
      StepKeepsSound(Now(), Notify(id));
      if id in rooms {
        rooms := rooms[id := Noticed(rooms[id])];
      }
    }

    /** Every room is notified. */
    method DirtyAll()
      requires Sound(Now())
      modifies this
      ensures Sound(Now()) && jobs == old(jobs) && workers == old(workers) && closed == old(closed)
      ensures rooms.Keys == old(rooms).Keys
      ensures forall id :: id in rooms ==> old(rooms)[id].timeline != [] && rooms[id] == Noticed(old(rooms)[id])
    {
      hide Sound, After, Wellformed, Noticed;
      SoundParts(Now());
      var rest := rooms.Keys;
      ghost var before := rooms;
      NoneMarked(Now());
      while rest != {}
        invariant Sound(Now()) && rest <= before.Keys && MarkedBut(before, rooms, rest)
        invariant jobs == old(jobs) && workers == old(workers) && closed == old(closed)
        decreases |rest|
      {
        hide MarkedBut;
        var id :| id in rest;
        SoundParts(Now());
        OneMoreMarked(before, rooms, rest, id);
        StepKeepsSound(Now(), Notify(id));
        NotifyEffect(Now(), id);
        rooms := rooms[id := Noticed(rooms[id])];
        rest := rest - {id};
      }
    }

    /** Close, up to its waits: sockets are closed and unregister themselves. */
    method Shut()
      requires Sound(Now())
      modifies this
      ensures Now() == After(old(Now()), Close) && Sound(Now())
    {
      hide Sound;
      SoundParts(Now());
      StepKeepsSound(Now(), Close);
      closed := true;
    }

    /** Serve, up to its loop. */
    method Serve(id: Id, key: Id, pid: Id, epoch: Id, timeline: seq<Public>, limit: nat) returns (ok: bool)
      requires Sound(Now()) && timeline != [] && Steady(timeline)
      requires id in rooms ==> key !in rooms[id].sockets
      modifies this
      ensures Now() == After(old(Now()), Register(id, key, pid, epoch, timeline, limit)) && Sound(Now())
      ensures ok <==> id in rooms && key in rooms[id].sockets
      ensures old(closed) ==> !ok && Now() == old(Now())
    {
      hide Sound, SocketsOf, Steady;
      SoundParts(Now());
      StepKeepsSound(Now(), Register(id, key, pid, epoch, timeline, limit));
      if closed || (id !in rooms && |rooms| >= limit) {
        return false;
      }
      var room := if id in rooms then rooms[id] else Opened(timeline);
      var count := CountSockets(room.sockets, pid);
      if |room.sockets| >= SOCKETS || count >= PER_PERSON {
        return false;
      }
      rooms := rooms[id := Noticed(room.(sockets := room.sockets[key := Socket(pid, epoch, None, [])]))];
      ok := true;
    }

    static method CountSockets(sockets: map<Id, Socket>, pid: Id) returns (count: nat)
      ensures count == SocketsOf(sockets, pid)
    {
      count := 0;
      var rest := sockets.Keys;
      ghost var counted: set<Id> := {};
      while rest != {}
        invariant rest <= sockets.Keys
        invariant counted == set key | key in sockets && key !in rest && sockets[key].pid == pid
        invariant count == |counted|
        decreases |rest|
      {
        var key :| key in rest;
        rest := rest - {key};
        if sockets[key].pid == pid {
          counted := counted + {key};
          count := count + 1;
        }
      }
      assert counted == Belonging(sockets, pid);
    }

    /** One tick looks at the rooms in some order; a full channel leaves a room dirty. */
    method TickAll()
      requires Sound(Now())
      modifies this
      ensures Sound(Now()) && workers == old(workers) && closed == old(closed) && rooms.Keys == old(rooms).Keys
      ensures |jobs| >= |old(jobs)| && jobs[..|old(jobs)|] == old(jobs)
      ensures |jobs| < JOBS ==> forall id :: id in rooms ==> !Due(Now(), rooms[id])
    {
      hide Sound, RoomTrue;
      var rest := rooms.Keys;
      ghost var before := jobs;
      while rest != {}
        invariant Sound(Now()) && rest <= rooms.Keys == old(rooms).Keys && workers == old(workers)
          && closed == old(closed)
        invariant |jobs| >= |before| && jobs[..|before|] == before
        invariant |jobs| < JOBS ==> forall id :: id in rooms && id !in rest ==> !Due(Now(), rooms[id])
        decreases |rest|
      {
        var id :| id in rest;
        SoundParts(Now());
        StepKeepsSound(Now(), Tick(id));
        var room := rooms[id];
        if room.dirty && !room.refreshing && room.sockets != map[] && |jobs| < JOBS {
          jobs := jobs + [id];
          rooms := rooms[id := room.(dirty := false, refreshing := true)];
        }
        rest := rest - {id};
      }
    }

    // ---------- A worker ----------

    method TakeJob(w: nat)
      requires Sound(Now()) && w < WORKERS && |workers| == WORKERS && workers[w] == Idle && jobs != []
      modifies this
      ensures Now() == After(old(Now()), Take(w)) && Sound(Now())
    {
      hide Sound;
      SoundParts(Now());
      StepKeepsSound(Now(), Take(w));
      workers := workers[w := Taken(jobs[0])];
      jobs := jobs[1..];
    }

    /** The snapshot is read outside the mutex, at one moment of the room. */
    method ReadSnapshot(w: nat, ok: bool)
      requires Sound(Now()) && w < WORKERS && |workers| == WORKERS && workers[w].Taken? && workers[w].id in rooms
      modifies this
      ensures Now() == After(old(Now()), Read(w, ok)) && Sound(Now())
    {
      hide Sound;
      SoundParts(Now());
      StepKeepsSound(Now(), Read(w, ok));
      var id := workers[w].id;
      workers := workers[w := Holding(id, Fetched(ok, |rooms[id].timeline| - 1))];
    }

    /** The locked part of refresh: the cached encoding is replaced when it is of another
        epoch or version, and every socket is offered its message. */
    method Broadcast(w: nat)
      requires Sound(Now()) && w < WORKERS && |workers| == WORKERS && workers[w].Holding? && workers[w].id in rooms
      modifies this
      ensures Now() == After(old(Now()), Deliver(w)) && Sound(Now())
    {
      hide Sound, Encoded;
      SoundParts(Now());
      StepKeepsSound(Now(), Deliver(w));
      var id, read := workers[w].id, workers[w].read;
      var room := rooms[id];
      var latest, message := room.latest, Unavailable;
      if read.ok {
        var p := Encode(room.latest, room.timeline[read.moment]);
        latest, message := Some(p), Standings(p);
      }
      var sockets := OfferAll(room, read, message);
      assert Delivered(room, read).sockets == sockets;
      rooms := rooms[id := room.(sockets := sockets, latest := latest)];
      workers := workers[w := Finishing(id)];
    }

    static method Encode(latest: Option<Public>, p: Public) returns (message: Public)
      ensures message == Encoded(latest, p)
    {
      if latest.None? || latest.value.epoch != p.epoch || latest.value.version != p.version {
        return p;
      }
      message := latest.value;
    }

    /** Every socket is offered the message, or a reset notice when it is of another epoch.
        The writer of a socket may take its message in the middle of the offer. */
    static method OfferAll(room: LiveRoom, read: Fetched, message: Message) returns (sockets: map<Id, Socket>)
      requires room.timeline != [] && read.moment < |room.timeline|
      requires message == if read.ok then Standings(Encoded(room.latest, room.timeline[read.moment])) else Unavailable
      ensures sockets == map key | key in room.sockets :: Offered(room, room.sockets[key], read)
    {
      hide Encoded;
      sockets := map[];
      var moment: nat := read.moment;
      var rest := room.sockets.Keys;
      while rest != {}
        invariant rest <= room.sockets.Keys
        invariant sockets == map key | key in room.sockets && key !in rest :: Offered(room, room.sockets[key], read)
        decreases |rest|
      {
        var key :| key in rest;
        var socket := room.sockets[key];
        var next := message;
        if read.ok && socket.epoch != room.timeline[read.moment].epoch {
          next := ResetRequired;
        }
        var between: bool := *;
        var queue, seen, dropped := OfferTo(socket.queue, next, between);
        sockets := sockets[key := Socket(socket.pid, socket.epoch, queue, socket.offered + [Offer(next, moment)])];
        rest := rest - {key};
      }
    }

    method Release(w: nat)
      requires Sound(Now()) && w < WORKERS && |workers| == WORKERS && workers[w].Finishing? && workers[w].id in rooms
      modifies this
      ensures Now() == After(old(Now()), Finish(w)) && Sound(Now())
    {
      hide Sound;
      SoundParts(Now());
      StepKeepsSound(Now(), Finish(w));
      var id := workers[w].id;
      rooms := rooms[id := rooms[id].(refreshing := false)];
      workers := workers[w := Idle];
    }

    // ---------- A socket ----------

    method TakeMessage(id: Id, key: Id) returns (message: Option<Message>)
      requires Sound(Now()) && id in rooms && key in rooms[id].sockets
      modifies this
      ensures Now() == After(old(Now()), Consume(id, key)) && Sound(Now())
      ensures message == old(rooms[id].sockets[key].queue)
    {
      hide Sound;
      SoundParts(Now());
      StepKeepsSound(Now(), Consume(id, key));
      var room := rooms[id];
      message := room.sockets[key].queue;
      rooms := rooms[id := room.(sockets := room.sockets[key := room.sockets[key].(queue := None)])];
    }

    method Gone(id: Id, key: Id)
      requires Sound(Now()) && id in rooms
      modifies this
      ensures Now() == After(old(Now()), Unregister(id, key)) && Sound(Now())
    {
      hide Sound;
      SoundParts(Now());
      StepKeepsSound(Now(), Unregister(id, key));
      rooms := rooms[id := rooms[id].(sockets := rooms[id].sockets - {key})];
    }
  }
}
