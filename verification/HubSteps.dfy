/** Every step of the hub keeps its invariant, and what follows for subscribers. */
module HubSteps {
  import opened Domain
  import opened Store
  import opened Hub

  // ---------- Steps that touch one room and no job ----------

  /** Whatever a worker holds stays good. */
  ghost predicate KeepsReads(r: LiveRoom, r': LiveRoom) {
    forall read :: ReadTrue(r, read) ==> ReadTrue(r', read)
  }

  ghost predicate KeepsInformed(r: LiveRoom, r': LiveRoom) {
    r'.dirty || (!r.dirty && forall key :: key in r'.sockets ==>
      key in r.sockets && (Informed(r.sockets[key], r.noticed) ==> Informed(r'.sockets[key], r'.noticed)))
  }

  lemma RoomReplaced(s: State, id: Id, r': LiveRoom)
    requires Sound(s) && id in s.rooms && RoomTrue(r') && r'.refreshing == s.rooms[id].refreshing
    requires |r'.timeline| >= |s.rooms[id].timeline|
    requires KeepsReads(s.rooms[id], r') && KeepsInformed(s.rooms[id], r')
    ensures Sound(s.(rooms := s.rooms[id := r']))
  {
    hide RoomTrue, ReadTrue, Informed;
    var t := s.(rooms := s.rooms[id := r']);
    RoomNonempty(r');
    assert forall x :: Owned(t, x) <==> Owned(s, x);
    assert forall x :: Coming(t, x) <==> Coming(s, x);
    forall x | x in t.rooms
      ensures NothingLost(t, x)
    {
      assert NothingLost(s, x);
    }
  }

  lemma RoomNonempty(r: LiveRoom)
    requires RoomTrue(r)
    ensures r.timeline != [] && |r.sockets| <= SOCKETS
  {
  }

  lemma CommitSound(s: State, id: Id, public: Public)
    requires Sound(s) && id in s.rooms && Steady(s.rooms[id].timeline + [public])
    ensures Sound(After(s, Commit(id, public)))
  {
    hide Sound, Steady, Informed;
    RoomOf(s, id);
    var r := s.rooms[id];
    var r' := r.(timeline := r.timeline + [public]);
    forall key | key in r'.sockets
      ensures OffersTrue(r', r'.sockets[key])
    {
      assert OffersTrue(r, r.sockets[key]);
    }
    RoomReplaced(s, id, r');
  }

  lemma RoomOf(s: State, id: Id)
    requires Sound(s) && id in s.rooms
    ensures RoomTrue(s.rooms[id]) && NothingLost(s, id) && Wellformed(s) && OneOwner(s)
  {
    hide RoomTrue;
  }

  lemma NotifySound(s: State, id: Id)
    requires Sound(s) && id in s.rooms
    ensures Sound(After(s, Notify(id)))
  {
    hide Sound, Steady, Informed;
    RoomOf(s, id);
    var r := s.rooms[id];
    var r' := Noticed(r);
    forall key | key in r'.sockets
      ensures OffersTrue(r', r'.sockets[key])
    {
      assert OffersTrue(r, r.sockets[key]);
    }
    RoomReplaced(s, id, r');
  }

  lemma SocketAdded(r: LiveRoom, key: Id, socket: Socket)
    requires RoomTrue(r) && key !in r.sockets && |r.sockets| < SOCKETS && socket.queue == None && socket.offered == []
    ensures RoomTrue(Noticed(r.(sockets := r.sockets[key := socket])))
  {
    hide Steady;
    var r' := Noticed(r.(sockets := r.sockets[key := socket]));
    assert |r'.sockets| == |r.sockets| + 1;
    forall k | k in r'.sockets
      ensures OffersTrue(r', r'.sockets[k])
    {
      if k != key {
        assert OffersTrue(r, r.sockets[k]);
      }
    }
  }

  lemma RegisterSound(s: State, step: Step)
    requires Sound(s) && step.Register? && Fair(s, step)
    ensures Sound(After(s, step))
  {
    hide Sound, Steady, Informed, RoomTrue, SocketsOf;
    var id, key := step.id, step.key;
    SoundParts(s);
    if step.timeline != [] && !(id in s.rooms && key in s.rooms[id].sockets) && Admitted(s, step).Some? {
      var socket := Socket(step.pid, step.epoch, None, []);
      if id in s.rooms {
        RoomOf(s, id);
        var r := s.rooms[id];
        SocketAdded(r, key, socket);
        RoomReplaced(s, id, Noticed(r.(sockets := r.sockets[key := socket])));
      } else {
        OpenedTrue(step.timeline);
        SocketAdded(Opened(step.timeline), key, socket);
        RoomCreated(s, id, Noticed(Opened(step.timeline).(sockets := map[key := socket])));
      }
    }
  }

  lemma SoundParts(s: State)
    requires Sound(s)
    ensures Wellformed(s)
  {
  }

  lemma OpenedTrue(timeline: seq<Public>)
    requires timeline != [] && Steady(timeline)
    ensures RoomTrue(Opened(timeline))
  {
  }

  lemma RoomCreated(s: State, id: Id, r: LiveRoom)
    requires Sound(s) && id !in s.rooms && RoomTrue(r) && r.dirty && !r.refreshing
    ensures Sound(s.(rooms := s.rooms[id := r]))
  {
    hide RoomTrue, ReadTrue, Informed;
    var t := s.(rooms := s.rooms[id := r]);
    RoomNonempty(r);
    assert forall x :: Owned(t, x) <==> Owned(s, x);
    assert forall x :: Coming(t, x) <==> Coming(s, x);
    assert !Owned(s, id);
    forall x | x in t.rooms
      ensures NothingLost(t, x)
    {
      assert x == id || NothingLost(s, x);
    }
  }

  lemma SocketGone(r: LiveRoom, key: Id)
    requires RoomTrue(r)
    ensures RoomTrue(r.(sockets := r.sockets - {key}))
    ensures KeepsReads(r, r.(sockets := r.sockets - {key})) && KeepsInformed(r, r.(sockets := r.sockets - {key}))
  {
    hide Steady, Informed;
    var r' := r.(sockets := r.sockets - {key});
    assert r'.sockets.Keys == r.sockets.Keys - {key};
    assert |r'.sockets.Keys| == |r'.sockets| && |r.sockets.Keys| == |r.sockets|;
    forall k | k in r'.sockets
      ensures OffersTrue(r', r'.sockets[k])
    {
      assert OffersTrue(r, r.sockets[k]);
    }
  }

  lemma UnregisterSound(s: State, id: Id, key: Id)
    requires Sound(s) && id in s.rooms
    ensures Sound(After(s, Unregister(id, key)))
  {
    hide Sound, RoomTrue, KeepsReads, KeepsInformed;
    RoomOf(s, id);
    SocketGone(s.rooms[id], key);
    RoomReplaced(s, id, s.rooms[id].(sockets := s.rooms[id].sockets - {key}));
  }

  function Emptied(r: LiveRoom, key: Id): LiveRoom
    requires key in r.sockets
  {
    r.(sockets := r.sockets[key := r.sockets[key].(queue := None)])
  }

  lemma EmptiedTrue(r: LiveRoom, key: Id)
    requires RoomTrue(r) && key in r.sockets
    ensures RoomTrue(Emptied(r, key))
  {
    hide Steady, OffersTrue;
    var r' := Emptied(r, key);
    assert r'.sockets.Keys == r.sockets.Keys;
    assert |r'.sockets.Keys| == |r'.sockets| && |r.sockets.Keys| == |r.sockets|;
    forall k | k in r'.sockets
      ensures OffersTrue(r', r'.sockets[k])
    {
      SameOffers(r, r', r.sockets[k], r'.sockets[k]);
    }
  }

  lemma SameOffers(r: LiveRoom, r': LiveRoom, a: Socket, b: Socket)
    requires r'.timeline == r.timeline && b == a.(queue := b.queue) && (b.queue.None? || b.queue == a.queue)
    ensures OffersTrue(r, a) ==> OffersTrue(r', b)
  {
  }

  lemma EmptiedKeeps(r: LiveRoom, key: Id)
    requires key in r.sockets
    ensures KeepsReads(r, Emptied(r, key)) && KeepsInformed(r, Emptied(r, key))
  {
    var r' := Emptied(r, key);
    assert forall k :: k in r'.sockets <==> k in r.sockets;
    assert forall k :: k in r.sockets ==> r'.sockets[k].offered == r.sockets[k].offered;
    forall moment: nat
      ensures OfferedBy(r, moment) ==> OfferedBy(r', moment)
    {
    }
  }

  lemma ConsumeSound(s: State, id: Id, key: Id)
    requires Sound(s) && id in s.rooms && key in s.rooms[id].sockets
    ensures Sound(After(s, Consume(id, key)))
  {
    hide Sound, RoomTrue, KeepsReads, KeepsInformed;
    RoomOf(s, id);
    EmptiedTrue(s.rooms[id], key);
    EmptiedKeeps(s.rooms[id], key);
    RoomReplaced(s, id, Emptied(s.rooms[id], key));
  }

  // ---------- Jobs and workers ----------

  /** The room passes from dirty to owned in one step. */
  lemma TickSound(s: State, id: Id)
    requires Sound(s) && id in s.rooms && Due(s, s.rooms[id])
    ensures Sound(After(s, Tick(id)))
  {
    hide RoomTrue, Informed, OfferedBy;
    var t := After(s, Tick(id));
    var r, r' := s.rooms[id], t.rooms[id];
    assert !Owned(s, id);
    assert forall x :: x in t.jobs <==> x in s.jobs || x == id;
    assert forall x :: Worked(t, x) <==> Worked(s, x);
    assert forall w :: 0 <= w < |s.workers| ==> On(s.workers[w]) != Some(id);
    TickRoomTrue(r);
    forall x | x in t.rooms
      ensures NothingLost(t, x)
    {
      assert NothingLost(s, x);
      assert Coming(s, x) ==> Coming(t, x);
    }
    forall x | x in t.rooms
      ensures t.rooms[x].refreshing <==> Owned(t, x)
    {
      assert s.rooms[x].refreshing <==> Owned(s, x);
    }
  }

  lemma TickRoomTrue(r: LiveRoom)
    requires RoomTrue(r)
    ensures RoomTrue(r.(dirty := false, refreshing := true))
  {
    hide Steady;
    forall k | k in r.sockets
      ensures OffersTrue(r.(dirty := false, refreshing := true), r.sockets[k])
    {
      assert OffersTrue(r, r.sockets[k]);
    }
  }

  lemma TookDistinct(jobs: seq<Id>)
    requires Distinct(jobs) && jobs != []
    ensures Distinct(jobs[1..]) && jobs[0] !in jobs[1..]
  {
  }

  lemma TakeOwners(s: State, w: nat)
    requires Wellformed(s) && OneOwner(s)
    requires w < WORKERS && s.workers[w] == Idle && s.jobs != []
    ensures OneOwner(After(s, Take(w)))
  {
    hide Distinct;
    TookDistinct(s.jobs);
    var t := After(s, Take(w));
    var job := s.jobs[0];
    assert s.jobs == [job] + t.jobs;
    assert t.workers[w] == Taken(job);
    assert forall u :: 0 <= u < |s.workers| && u != w ==> t.workers[u] == s.workers[u];
    assert forall u :: 0 <= u < |s.workers| ==> On(s.workers[u]) != Some(job);
  }

  lemma TakeMovesJob(s: State, w: nat, x: Id)
    requires Wellformed(s) && w < WORKERS && s.workers[w] == Idle && s.jobs != []
    ensures Owned(s, x) <==> Owned(After(s, Take(w)), x)
    ensures Coming(s, x) ==> Coming(After(s, Take(w)), x)
  {
    var t := After(s, Take(w));
    var job := s.jobs[0];
    assert s.jobs == [job] + t.jobs;
    assert t.workers[w] == Taken(job) && On(t.workers[w]) == Some(job);
    assert forall u :: 0 <= u < |s.workers| && u != w ==> t.workers[u] == s.workers[u];
    if Worked(s, x) {
      var u :| 0 <= u < |s.workers| && On(s.workers[u]) == Some(x);
      assert On(t.workers[u]) == Some(x);
    }
    if Worked(t, x) {
      var u :| 0 <= u < |t.workers| && On(t.workers[u]) == Some(x);
      assert u == w || On(s.workers[u]) == Some(x);
    }
  }

  lemma TakeSound(s: State, w: nat)
    requires Sound(s) && w < WORKERS && s.workers[w] == Idle && s.jobs != []
    ensures Sound(After(s, Take(w)))
  {
    hide RoomTrue, Informed, ReadTrue, OneOwner, Owned, Coming;
    var t := After(s, Take(w));
    TakeOwners(s, w);
    assert forall u :: 0 <= u < |s.workers| && u != w ==> t.workers[u] == s.workers[u];
    JobsInRooms(s);
    forall x | x in t.rooms
      ensures NothingLost(t, x)
      ensures t.rooms[x].refreshing <==> Owned(t, x)
    {
      assert NothingLost(s, x);
      TakeMovesJob(s, w, x);
    }
  }

  lemma JobsInRooms(s: State)
    requires OneOwner(s)
    ensures forall i :: 0 <= i < |s.jobs| ==> s.jobs[i] in s.rooms
  {
  }

  /** A change of one worker's stage on the same room. */
  lemma StageChanged(s: State, w: nat, stage: Worker)
    requires Sound(s) && w < WORKERS && On(s.workers[w]).Some? && On(stage) == On(s.workers[w])
    ensures
      var t := s.(workers := s.workers[w := stage]);
      && OneOwner(t) && RefreshingMeansOwned(t)
      && forall x :: Owned(s, x) <==> Owned(t, x)
  {
    hide RoomTrue, Informed, ReadTrue, NothingLost;
    var t := s.(workers := s.workers[w := stage]);
    assert forall u :: 0 <= u < |s.workers| ==> On(t.workers[u]) == On(s.workers[u]);
    assert forall x :: Owned(s, x) <==> Owned(t, x);
  }

  lemma ReadSound(s: State, w: nat, ok: bool)
    requires Sound(s) && w < WORKERS && s.workers[w].Taken?
    ensures Sound(After(s, Read(w, ok)))
  {
    hide RoomTrue, Informed, OneOwner, RefreshingMeansOwned;
    var t := After(s, Read(w, ok));
    var id := s.workers[w].id;
    StageChanged(s, w, t.workers[w]);
    RoomOf(s, id);
    ReadIsTrue(s.rooms[id], ok);
    forall x | x in t.rooms
      ensures NothingLost(t, x)
    {
      assert NothingLost(s, x);
      if x == id {
        assert Coming(t, x);
      } else if Coming(s, x) && x !in s.jobs {
        var u :| 0 <= u < |s.workers| && (s.workers[u] == Taken(x) || (s.workers[u].Holding? && s.workers[u].id == x));
        assert t.workers[u] == s.workers[u];
      }
    }
  }

  /** A read that has just been made covers every notification and every earlier offer. */
  lemma ReadIsTrue(r: LiveRoom, ok: bool)
    requires RoomTrue(r)
    ensures ReadTrue(r, Fetched(ok, |r.timeline| - 1))
  {
    hide Steady;
    forall key, i | key in r.sockets && 0 <= i < |r.sockets[key].offered|
      ensures r.sockets[key].offered[i].moment <= |r.timeline| - 1
    {
      assert OffersTrue(r, r.sockets[key]);
    }
  }

  /** The cached encoding is always that of the state just read. */
  lemma CacheIsFresh(r: LiveRoom, moment: nat)
    requires RoomTrue(r) && moment < |r.timeline|
    ensures Encoded(r.latest, r.timeline[moment]) == r.timeline[moment]
  {
    hide OffersTrue;
    if r.latest.Some? {
      var k :| 0 <= k < |r.timeline| && r.timeline[k] == r.latest.value;
      assert k <= moment || moment <= k;
    }
  }

  lemma OfferKeeps(r: LiveRoom, socket: Socket, read: Fetched)
    requires RoomTrue(r) && OffersTrue(r, socket)
    requires read.moment < |r.timeline| && forall i :: 0 <= i < |socket.offered| ==>
      socket.offered[i].moment <= read.moment
    ensures OffersTrue(r, Offered(r, socket, read))
    ensures Offered(r, socket, read).pid == socket.pid
    ensures r.noticed <= read.moment ==> Informed(Offered(r, socket, read), r.noticed)
  {
    hide Steady;
    if read.ok {
      CacheIsFresh(r, read.moment);
    }
  }

  lemma DeliveredTrue(r: LiveRoom, read: Fetched)
    requires RoomTrue(r) && ReadTrue(r, read)
    ensures RoomTrue(Delivered(r, read))
    ensures forall key :: key in r.sockets <==> key in Delivered(r, read).sockets
    ensures Delivered(r, read).dirty
      || forall key :: key in r.sockets ==> Informed(Delivered(r, read).sockets[key], r.noticed)
  {
    hide Steady, OffersTrue, Informed, Offered;
    var d := Delivered(r, read);
    assert d.sockets.Keys == r.sockets.Keys;
    assert |d.sockets.Keys| == |d.sockets| && |r.sockets.Keys| == |r.sockets|;
    forall key | key in r.sockets
      ensures OffersTrue(d, d.sockets[key])
      ensures !r.dirty ==> Informed(d.sockets[key], r.noticed)
    {
      OfferKeeps(r, r.sockets[key], read);
      SameTimeline(r, d, d.sockets[key]);
    }
    if read.ok {
      CacheIsFresh(r, read.moment);
    }
  }

  lemma SameTimeline(r: LiveRoom, d: LiveRoom, socket: Socket)
    requires d.timeline == r.timeline
    ensures OffersTrue(r, socket) ==> OffersTrue(d, socket)
  {
  }

  lemma DeliverSound(s: State, w: nat)
    requires Sound(s) && w < WORKERS && s.workers[w].Holding?
    ensures Sound(After(s, Deliver(w)))
  {
    hide RoomTrue, Informed, OneOwner, RefreshingMeansOwned, ReadTrue, Delivered;
    var t := After(s, Deliver(w));
    var id, read := s.workers[w].id, s.workers[w].read;
    StageChanged(s, w, Finishing(id));
    RoomOf(s, id);
    DeliveredTrue(s.rooms[id], read);
    DeliveredFrame(s.rooms[id], read);
    OnlyWorker(s, w);
    RoomNonempty(t.rooms[id]);
    OwnersByJobs(s.(workers := s.workers[w := Finishing(id)]), t);
    forall x | x in t.rooms
      ensures NothingLost(t, x)
    {
      assert NothingLost(s, x);
      if x != id && Coming(s, x) && x !in s.jobs {
        var u :| 0 <= u < |s.workers| && (s.workers[u] == Taken(x) || (s.workers[u].Holding? && s.workers[u].id == x));
        assert t.workers[u] == s.workers[u];
      }
    }
  }

  lemma DeliveredFrame(r: LiveRoom, read: Fetched)
    requires r.timeline != [] && read.moment < |r.timeline|
    ensures Delivered(r, read) == r.(sockets := Delivered(r, read).sockets, latest := Delivered(r, read).latest)
  {
  }

  /** No other worker works on the room of worker w. */
  lemma OnlyWorker(s: State, w: nat)
    requires Sound(s) && w < WORKERS && On(s.workers[w]).Some?
    ensures On(s.workers[w]).value in s.rooms && On(s.workers[w]).value !in s.jobs
    ensures forall u :: 0 <= u < |s.workers| && u != w ==> On(s.workers[u]) != On(s.workers[w])
  {
    hide RoomTrue, NothingLost, ReadTrue;
  }

  /** Ownership depends on jobs, workers and the refreshing flags only. */
  lemma OwnersByJobs(s: State, t: State)
    requires OneOwner(s) && RefreshingMeansOwned(s)
    requires t.jobs == s.jobs && t.workers == s.workers && t.rooms.Keys == s.rooms.Keys
    requires forall x :: x in s.rooms ==> t.rooms[x].refreshing == s.rooms[x].refreshing
    ensures OneOwner(t) && RefreshingMeansOwned(t)
  {
    assert forall x :: Owned(t, x) <==> Owned(s, x);
    assert forall x :: x in t.rooms <==> x in t.rooms.Keys;
  }

  lemma FinishSound(s: State, w: nat)
    requires Sound(s) && w < WORKERS && s.workers[w].Finishing?
    ensures Sound(After(s, Finish(w)))
  {
    hide RoomTrue, Informed, ReadTrue;
    var t := After(s, Finish(w));
    var id := s.workers[w].id;
    OnlyWorker(s, w);
    RoomOf(s, id);
    ReleasedTrue(s.rooms[id]);
    assert forall u :: 0 <= u < |s.workers| && u != w ==> t.workers[u] == s.workers[u];
    assert !Worked(t, id);
    forall x | x in t.rooms
      ensures t.rooms[x].refreshing <==> Owned(t, x)
      ensures NothingLost(t, x)
    {
      assert NothingLost(s, x);
      assert s.rooms[x].refreshing <==> Owned(s, x);
      if Worked(s, x) && x != id {
        var u :| 0 <= u < |s.workers| && On(s.workers[u]) == Some(x);
        assert On(t.workers[u]) == Some(x);
      }
      if Coming(s, x) && x !in s.jobs {
        var u :| 0 <= u < |s.workers| && (s.workers[u] == Taken(x) || (s.workers[u].Holding? && s.workers[u].id == x));
        assert t.workers[u] == s.workers[u];
      }
    }
  }

  lemma ReleasedTrue(r: LiveRoom)
    requires RoomTrue(r)
    ensures RoomTrue(r.(refreshing := false))
  {
    hide Steady;
    forall k | k in r.sockets
      ensures OffersTrue(r.(refreshing := false), r.sockets[k])
    {
      assert OffersTrue(r, r.sockets[k]);
    }
  }

  lemma ClosedSound(s: State)
    requires Sound(s)
    ensures Sound(s.(closed := true))
  {
    hide RoomTrue, Informed, ReadTrue;
    var t := s.(closed := true);
    assert forall x :: Owned(t, x) <==> Owned(s, x);
    forall x | x in t.rooms
      ensures NothingLost(t, x)
    {
      assert NothingLost(s, x);
    }
  }

  // ---------- Every interleaving ----------

  lemma StepKeepsSound(s: State, step: Step)
    requires Sound(s) && Fair(s, step)
    ensures Sound(After(s, step))
  {
    hide Sound, OneOwner, Admitted, Steady, Delivered;
    SoundParts(s);
    match step {
      case Commit(id, public) => if id in s.rooms { CommitSound(s, id, public); }
      case Notify(id) => if id in s.rooms { NotifySound(s, id); }
      case Tick(id) => if id in s.rooms && Due(s, s.rooms[id]) { TickSound(s, id); }
      case Register(_, _, _, _, _, _) => RegisterSound(s, step);
      case Unregister(id, key) => if id in s.rooms { UnregisterSound(s, id, key); }
      case Take(w) => if w < WORKERS && s.workers[w] == Idle && s.jobs != [] { TakeSound(s, w); }
      case Read(w, ok) => if w < WORKERS && s.workers[w].Taken? { ReadSound(s, w, ok); }
      case Deliver(w) => if w < WORKERS && s.workers[w].Holding? { DeliverSound(s, w); }
      case Finish(w) => if w < WORKERS && s.workers[w].Finishing? { FinishSound(s, w); }
      case Consume(id, key) => if id in s.rooms && key in s.rooms[id].sockets { ConsumeSound(s, id, key); }
      case Close => ClosedSound(s);
    }
  }
}
