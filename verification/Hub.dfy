/** The real-time hub (backend/internal/realtime/hub.go) as a machine of small steps:
    notifications, ticks, four workers that take a job, read and deliver, sockets that
    come, consume and go. Any step may follow any other, so the invariant proved here
    holds of every interleaving.

    `timeline`, `noticed` and `offered` are history: what the server's public states
    were, up to which of them a notification has come, and what was put in a queue. */
module Hub {
  import opened Domain
  import opened Store

  datatype Message = Standings(public: Public) | Unavailable | ResetRequired

  /** A message put in a socket's queue after a read, or a failed one, at `moment` of the timeline. */
  datatype Offer = Offer(message: Message, moment: nat)

  datatype Socket = Socket(pid: Id, epoch: Id, queue: Option<Message>, offered: seq<Offer>)

  datatype LiveRoom = LiveRoom(
    sockets: map<Id, Socket>, dirty: bool, refreshing: bool, latest: Option<Public>,
    timeline: seq<Public>, noticed: nat)

  /** A read, or an attempt that failed, and the moment of the timeline it was made at. */
  datatype Fetched = Fetched(ok: bool, moment: nat)

  /** A worker with a job is before its read, holds what it read, or has delivered and not
      yet released the room. */
  datatype Worker = Idle | Taken(id: Id) | Holding(id: Id, read: Fetched) | Finishing(id: Id)

  datatype State = State(rooms: map<Id, LiveRoom>, jobs: seq<Id>, workers: seq<Worker>, closed: bool)

  const JOBS := 32
  const WORKERS := 4
  const SOCKETS := 800
  const PER_PERSON := 4

  datatype Step =
    | Commit(id: Id, public: Public)
    | Notify(id: Id)
    | Tick(id: Id)
    | Register(id: Id, key: Id, pid: Id, epoch: Id, timeline: seq<Public>, limit: nat)
    | Unregister(id: Id, key: Id)
    | Take(w: nat)
    | Read(w: nat, ok: bool)
    | Deliver(w: nat)
    | Finish(w: nat)
    | Consume(id: Id, key: Id)
    | Close

  // ---------- What a step does ----------

  function Belonging(sockets: map<Id, Socket>, pid: Id): set<Id> {
    set key | key in sockets && sockets[key].pid == pid
  }

  function SocketsOf(sockets: map<Id, Socket>, pid: Id): nat {
    |Belonging(sockets, pid)|
  }

  function Opened(timeline: seq<Public>): LiveRoom
    requires timeline != []
  {
    LiveRoom(map[], false, false, None, timeline, |timeline| - 1)
  }

  function Noticed(r: LiveRoom): LiveRoom
    requires r.timeline != []
  {
    r.(dirty := true, noticed := |r.timeline| - 1)
  }

  /** Serve up to its loop: None when the socket is turned away. A closed hub takes none. */
  function Admitted(s: State, step: Step): Option<LiveRoom>
    requires step.Register? && step.timeline != []
    requires step.id in s.rooms ==> s.rooms[step.id].timeline != []
  {
    if s.closed || (step.id !in s.rooms && |s.rooms| >= step.limit) then None
    else
      var r := if step.id in s.rooms then s.rooms[step.id] else Opened(step.timeline);
      if |r.sockets| >= SOCKETS || SocketsOf(r.sockets, step.pid) >= PER_PERSON then None
      else
        var socket := Socket(step.pid, step.epoch, None, []);
        Some(Noticed(r.(sockets := r.sockets[step.key := socket])))
  }

  predicate Due(s: State, r: LiveRoom) {
    r.dirty && !r.refreshing && r.sockets != map[] && |s.jobs| < JOBS
  }

  /** The cached encoding is kept when it is of the same epoch and version. */
  function Encoded(latest: Option<Public>, p: Public): Public {
    if latest.Some? && latest.value.epoch == p.epoch && latest.value.version == p.version then latest.value else p
  }

  function MessageFor(r: LiveRoom, epoch: Id, read: Fetched): Message
    requires read.moment < |r.timeline|
  {
    if !read.ok then Unavailable
    else
      var p := r.timeline[read.moment];
      if epoch != p.epoch then ResetRequired else Standings(Encoded(r.latest, p))
  }

  /** The newest message takes the one place in the queue. */
  function Offered(r: LiveRoom, socket: Socket, read: Fetched): Socket
    requires read.moment < |r.timeline|
    requires r.timeline != []
  {
    var message := MessageFor(r, socket.epoch, read);
    socket.(queue := Some(message),
            offered := socket.offered + [Offer(message, read.moment)])
  }

  function Delivered(r: LiveRoom, read: Fetched): LiveRoom
    requires read.moment < |r.timeline|
    requires r.timeline != []
  {
    r.(sockets := map key | key in r.sockets :: Offered(r, r.sockets[key], read),
       latest := if read.ok then Some(Encoded(r.latest, r.timeline[read.moment])) else r.latest)
  }

  /** The room a worker works on. */
  function On(w: Worker): Option<Id> {
    match w
    case Idle => None
    case Taken(id) => Some(id)
    case Holding(id, _) => Some(id)
    case Finishing(id) => Some(id)
  }

  /** Stored timelines are never empty and reads lie on them. */
  ghost predicate Wellformed(s: State) {
    && |s.workers| == WORKERS
    && (forall id :: id in s.rooms ==> s.rooms[id].timeline != [])
    && (forall w :: 0 <= w < |s.workers| && On(s.workers[w]).Some? ==> On(s.workers[w]).value in s.rooms)
    && (forall w :: 0 <= w < |s.workers| && s.workers[w].Holding? ==>
          s.workers[w].read.moment < |s.rooms[s.workers[w].id].timeline|)
  }

  /** A step that is not possible changes nothing. */
  ghost function After(s: State, step: Step): State
    requires Wellformed(s)
  {
    match step
    case Commit(id, public) =>
      if id !in s.rooms then s
      else s.(rooms := s.rooms[id := s.rooms[id].(timeline := s.rooms[id].timeline + [public])])
    case Notify(id) =>
      if id !in s.rooms then s else s.(rooms := s.rooms[id := Noticed(s.rooms[id])])
    case Tick(id) =>
      if id !in s.rooms || !Due(s, s.rooms[id]) then s
      else s.(jobs := s.jobs + [id], rooms := s.rooms[id := s.rooms[id].(dirty := false, refreshing := true)])
    case Register(id, key, pid, epoch, timeline, limit) =>
      if timeline == [] || (id in s.rooms && key in s.rooms[id].sockets) then s
      else
        var r := Admitted(s, step);
        if r.None? then s else s.(rooms := s.rooms[id := r.value])
    case Unregister(id, key) =>
      if id !in s.rooms then s
      else s.(rooms := s.rooms[id := s.rooms[id].(sockets := s.rooms[id].sockets - {key})])
    case Take(w) =>
      if w >= WORKERS || s.workers[w] != Idle || s.jobs == [] then s
      else s.(jobs := s.jobs[1..], workers := s.workers[w := Taken(s.jobs[0])])
    case Read(w, ok) =>
      if w >= WORKERS || !s.workers[w].Taken? then s
      else
        var id := s.workers[w].id;
        s.(workers := s.workers[w := Holding(id, Fetched(ok, |s.rooms[id].timeline| - 1))])
    case Deliver(w) =>
      if w >= WORKERS || !s.workers[w].Holding? then s
      else
        var id := s.workers[w].id;
        s.(workers := s.workers[w := Finishing(id)],
           rooms := s.rooms[id := Delivered(s.rooms[id], s.workers[w].read)])
    case Finish(w) =>
      if w >= WORKERS || !s.workers[w].Finishing? then s
      else
        var id := s.workers[w].id;
        s.(workers := s.workers[w := Idle], rooms := s.rooms[id := s.rooms[id].(refreshing := false)])
    case Consume(id, key) =>
      if id !in s.rooms || key !in s.rooms[id].sockets then s
      else
        var r := s.rooms[id];
        s.(rooms := s.rooms[id := r.(sockets := r.sockets[key := r.sockets[key].(queue := None)])])
    case Close => s.(closed := true)
  }

  // ---------- Invariant ----------

  /** Within an epoch the version does not drop, and epoch and version name one state. */
  ghost predicate Versioned(timeline: seq<Public>) {
    forall i, j :: 0 <= i <= j < |timeline| && timeline[i].epoch == timeline[j].epoch ==>
      && timeline[i].version <= timeline[j].version
      && (timeline[i].version == timeline[j].version ==> timeline[i] == timeline[j])
  }

  /** An epoch once left does not return. */
  ghost predicate NeverBack(timeline: seq<Public>) {
    forall i, j, k :: 0 <= i <= j <= k < |timeline| && timeline[i].epoch == timeline[k].epoch ==>
      timeline[j].epoch == timeline[i].epoch
  }

  /** What the room's runs guarantee of its public states. */
  ghost predicate Steady(timeline: seq<Public>) {
    Versioned(timeline) && NeverBack(timeline)
  }

  /** Steps of the environment keep timelines steady. */
  ghost predicate Fair(s: State, step: Step) {
    match step
    case Commit(id, public) => id in s.rooms ==> Steady(s.rooms[id].timeline + [public])
    case Register(_, _, _, _, timeline, _) => Steady(timeline)
    case _ => true
  }

  /** A job for a room, or a worker on it, is its one owner. */
  ghost predicate OneOwner(s: State) {
    && |s.jobs| <= JOBS && |s.workers| == WORKERS
    && Distinct(s.jobs)
    && (forall w :: 0 <= w < |s.workers| && On(s.workers[w]).Some? ==> On(s.workers[w]).value !in s.jobs)
    && (forall w, u :: 0 <= w < u < |s.workers| && On(s.workers[w]).Some? ==> On(s.workers[w]) != On(s.workers[u]))
    && (forall i :: 0 <= i < |s.jobs| ==> s.jobs[i] in s.rooms)
  }

  ghost predicate Worked(s: State, id: Id) {
    exists w :: 0 <= w < |s.workers| && On(s.workers[w]) == Some(id)
  }

  ghost predicate Owned(s: State, id: Id) {
    id in s.jobs || Worked(s, id)
  }

  ghost predicate RefreshingMeansOwned(s: State) {
    forall id {:trigger Owned(s, id)} :: id in s.rooms ==> (s.rooms[id].refreshing <==> Owned(s, id))
  }

  /** What a socket was offered is true, of its own epoch, and in order. */
  ghost predicate OffersTrue(r: LiveRoom, socket: Socket) {
    && (forall i :: 0 <= i < |socket.offered| ==>
          var o := socket.offered[i];
          && o.moment < |r.timeline|
          && (o.message.Standings? ==>
                o.message.public == r.timeline[o.moment] && o.message.public.epoch == socket.epoch)
          && (o.message.ResetRequired? ==> r.timeline[o.moment].epoch != socket.epoch))
    && (forall i, j :: 0 <= i < j < |socket.offered| ==> socket.offered[i].moment <= socket.offered[j].moment)
    && (socket.queue.Some? ==>
          socket.offered != [] && socket.queue.value == socket.offered[|socket.offered| - 1].message)
  }

  ghost predicate RoomTrue(r: LiveRoom) {
    && r.timeline != [] && Steady(r.timeline) && r.noticed < |r.timeline|
    && (r.latest.Some? ==> r.latest.value in r.timeline)
    && (forall key {:trigger OffersTrue(r, r.sockets[key])} :: key in r.sockets ==> OffersTrue(r, r.sockets[key]))
    && |r.sockets| <= SOCKETS
  }

  ghost predicate PerPerson(r: LiveRoom) {
    forall pid :: SocketsOf(r.sockets, pid) <= PER_PERSON
  }

  ghost predicate OfferedBy(r: LiveRoom, moment: nat) {
    forall key, i :: key in r.sockets && 0 <= i < |r.sockets[key].offered| ==>
      r.sockets[key].offered[i].moment <= moment
  }

  /** A worker that holds a read, made or failed: nobody was offered anything later, and either the read
      covers every notification or the room is dirty again. */
  ghost predicate ReadTrue(r: LiveRoom, read: Fetched) {
    read.moment < |r.timeline| && OfferedBy(r, read.moment) && (r.noticed <= read.moment || r.dirty)
  }

  ghost predicate ReadsTrue(s: State) {
    forall w :: 0 <= w < |s.workers| && s.workers[w].Holding? && s.workers[w].id in s.rooms ==>
      ReadTrue(s.rooms[s.workers[w].id], s.workers[w].read)
  }

  /** What the socket was last offered was read, or could not be read, at or after the moment. */
  ghost predicate Informed(socket: Socket, moment: nat) {
    socket.offered != [] && socket.offered[|socket.offered| - 1].moment >= moment
  }

  /** A refresh is on its way that has yet to read, or to deliver what it read. */
  ghost predicate Coming(s: State, id: Id) {
    id in s.jobs || exists w ::
      0 <= w < |s.workers| && (s.workers[w] == Taken(id) || (s.workers[w].Holding? && s.workers[w].id == id))
  }

  /** No notification is lost: the room is dirty, or a refresh is coming that will have
      read it, or every socket has it. */
  ghost predicate NothingLost(s: State, id: Id)
    requires id in s.rooms
  {
    var r := s.rooms[id];
    r.dirty || Coming(s, id) || forall key :: key in r.sockets ==> Informed(r.sockets[key], r.noticed)
  }

  ghost predicate Rooms(s: State) {
    forall id {:trigger RoomTrue(s.rooms[id])} :: id in s.rooms ==> RoomTrue(s.rooms[id])
  }

  ghost predicate AllInformed(s: State) {
    forall id {:trigger NothingLost(s, id)} :: id in s.rooms ==> NothingLost(s, id)
  }

  ghost predicate Sound(s: State) {
    && Wellformed(s) && OneOwner(s) && RefreshingMeansOwned(s) && Rooms(s) && ReadsTrue(s) && AllInformed(s)
  }
}
