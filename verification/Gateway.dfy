/** The learning gateway (backend/internal/learning/gateway.go): calls for the same work
    share one flight. Sections under the mutex and channel operations are steps, and any
    step may follow any other.

    `got` is history: what each caller was given, and by which flight. */
module Gateway {
  import opened Domain
  import Budget
  import Cache

  datatype Code = Unavailable | Busy | RateLimited | TimedOut | ProviderError(n: nat)

  datatype Outcome = Data(bytes: Cache.Bytes) | Failed(code: Code)

  /** A flight waits for a slot, holds one around its provider call, looks at its context
      and finishes. */
  datatype Stage =
    | Queued
    | Slotted
    | Running
    | Returned(outcome: Outcome)
    | Drained(outcome: Outcome)
    | Checked(outcome: Outcome)
    | Finished(outcome: Outcome)

  datatype Flight = Flight(key: Id, speech: bool, waiters: nat, cancelled: bool, stage: Stage)

  datatype State = State(
    closed: bool, flights: map<Id, Flight>, table: map<Id, Id>, callers: map<Id, Id>,
    waiting: nat, active: nat, slots: nat,
    text: seq<Cache.Entry>, audio: seq<Cache.Entry>, budget: Budget.State, got: map<Id, (Id, Outcome)>)

  const WAITING := 32
  const PER_FLIGHT := 16
  const FLIGHTS := 8
  const SLOTS := 2
  const TEXT_ENTRIES := 128
  const TEXT_BYTES := 4194304
  const AUDIO_ENTRIES := 32
  const AUDIO_BYTES := 16777216

  datatype Step =
    | Enter(caller: Id, owner: Id, kind: Budget.Kind, speech: bool, key: Id, now: int, serial: Id)
    | Acquire(f: Id)
    | GiveUp(f: Id)
    | Begin(f: Id)
    | Return(f: Id, outcome: Outcome)
    | Free(f: Id)
    | Check(f: Id)
    | Complete(f: Id, now: int)
    | Receive(caller: Id)
    | Leave(caller: Id)
    | Expire(f: Id)
    | Close
    | Clear

  datatype Reply = Refused(code: Code) | Hit(bytes: Cache.Bytes) | Waits(f: Id)

  // ---------- What a step does ----------

  /** The selected cache is looked at, which moves a hit to its front. */
  function Looked(s: State, step: Step): (State, Option<Cache.Bytes>)
    requires step.Enter?
  {
    var (entries, hit) := Cache.AfterGet(if step.speech then s.audio else s.text, step.key, step.now);
    (if step.speech then s.(audio := entries) else s.(text := entries), hit)
  }

  function Joined(s: State, caller: Id, f: Id): State
    requires f in s.flights
  {
    s.(flights := s.flights[f := s.flights[f].(waiters := s.flights[f].waiters + 1)],
       callers := s.callers[caller := f], waiting := s.waiting + 1)
  }

  /** Call up to its wait. */
  function Entered(s: State, step: Step): (State, Reply)
    requires step.Enter?
    requires step.key in s.table ==> s.table[step.key] in s.flights
  {
    if s.closed then (s, Refused(Unavailable))
    else
      var (t, hit) := Looked(s, step);
      if hit.Some? then (t, Hit(hit.value))
      else if t.waiting >= WAITING then (t, Refused(Busy))
      else if step.key in t.table then
        var f := t.table[step.key];
        if t.flights[f].waiters >= PER_FLIGHT then (t, Refused(Busy)) else (Joined(t, step.caller, f), Waits(f))
      else if |t.table| >= FLIGHTS then (t, Refused(Busy))
      else
        var (budget, allowed) := Budget.Step(t.budget, (step.owner, step.kind), step.now);
        if !allowed then (t.(budget := budget), Refused(RateLimited))
        else
          var u := t.(budget := budget, table := t.table[step.key := step.serial],
                      flights := t.flights[step.serial := Flight(step.key, step.speech, 0, false, Queued)]);
          (Joined(u, step.caller, step.serial), Waits(step.serial))
  }

  /** The deferred part of Call: the last waiter to go cancels the flight. */
  function Left(s: State, caller: Id): State
    requires caller in s.callers && s.callers[caller] in s.flights
    requires s.waiting > 0 && s.flights[s.callers[caller]].waiters > 0
  {
    var f := s.callers[caller];
    var flight := s.flights[f];
    s.(waiting := s.waiting - 1, callers := s.callers - {caller},
       flights := s.flights[f := flight.(waiters := flight.waiters - 1,
                                         cancelled := flight.cancelled || flight.waiters == 1)])
  }

  function Staged(s: State, f: Id, stage: Stage): State
    requires f in s.flights
  {
    s.(flights := s.flights[f := s.flights[f].(stage := stage)])
  }

  /** Only data that someone still waits for is kept. */
  function Kept(s: State, flight: Flight, now: int): State
    requires flight.stage.Checked?
  {
    var o := flight.stage.outcome;
    if o.Failed? || flight.waiters == 0 then s
    else if flight.speech
    then s.(audio := Cache.AfterPut(s.audio, flight.key, o.bytes, now, AUDIO_ENTRIES, AUDIO_BYTES))
    else s.(text := Cache.AfterPut(s.text, flight.key, o.bytes, now, TEXT_ENTRIES, TEXT_BYTES))
  }

  function Completed(s: State, f: Id, now: int): State
    requires f in s.flights && s.flights[f].stage.Checked?
  {
    var flight := s.flights[f];
    var t := Staged(Kept(s, flight, now), f, Finished(flight.stage.outcome));
    if flight.key in t.table && t.table[flight.key] == f then t.(table := t.table - {flight.key}) else t
  }

  function AllCancelled(s: State): map<Id, Flight> {
    map f | f in s.flights ::
      if s.flights[f].key in s.table && s.table[s.flights[f].key] == f
      then s.flights[f].(cancelled := true)
      else s.flights[f]
  }

  predicate AllFinished(flights: map<Id, Flight>) {
    forall f :: f in flights ==> flights[f].stage.Finished?
  }

  /** The end of Close, when no flight is left: fresh caches and windows. */
  function Emptied(s: State): State {
    s.(text := [], audio := [], budget := s.budget.(windows := map[]))
  }

  predicate Holds(stage: Stage) { stage.Slotted? || stage.Running? || stage.Returned? }

  function Holders(flights: map<Id, Flight>): set<Id> {
    set f | f in flights && Holds(flights[f].stage)
  }

  function Callees(flights: map<Id, Flight>): set<Id> {
    set f | f in flights && flights[f].stage.Running?
  }

  function WaitingOn(callers: map<Id, Id>, f: Id): set<Id> {
    set c | c in callers && callers[c] == f
  }

  // ---------- Invariant ----------

  ghost predicate Flying(s: State) {
    && (forall key :: key in s.table ==>
          s.table[key] in s.flights && s.flights[s.table[key]].key == key && !s.flights[s.table[key]].stage.Finished?)
    && (forall f :: f in s.flights && !s.flights[f].stage.Finished? ==>
          s.flights[f].key in s.table && s.table[s.flights[f].key] == f)
  }

  ghost predicate Counted(s: State) {
    && s.waiting == |s.callers| <= WAITING
    && (forall c :: c in s.callers ==> s.callers[c] in s.flights)
    && (forall f :: f in s.flights ==> s.flights[f].waiters == |WaitingOn(s.callers, f)| <= PER_FLIGHT)
  }

  ghost predicate Limited(s: State) {
    && |s.table| <= FLIGHTS
    && s.slots == |Holders(s.flights)| <= SLOTS
    && s.active == |Callees(s.flights)|
  }

  /** What a caller was given is what its flight finished with. */
  ghost predicate Told(s: State) {
    forall c :: c in s.got ==>
      s.got[c].0 in s.flights && s.flights[s.got[c].0].stage == Finished(s.got[c].1)
  }

  ghost predicate CachesBounded(s: State) {
    && Cache.OneEach(s.text) && Cache.Bounded(s.text, TEXT_ENTRIES, TEXT_BYTES)
    && Cache.OneEach(s.audio) && Cache.Bounded(s.audio, AUDIO_ENTRIES, AUDIO_BYTES)
  }

  /** Every cached entry is what a flight for its key finished with successfully. */
  ghost predicate FromFlight(s: State, e: Cache.Entry, speech: bool) {
    exists f :: f in s.flights && s.flights[f].key == e.key && s.flights[f].speech == speech
      && s.flights[f].stage == Finished(Data(e.data))
  }

  ghost predicate CachesTrue(s: State) {
    && (forall e {:trigger FromFlight(s, e, false)} :: e in s.text ==> FromFlight(s, e, false))
    && (forall e {:trigger FromFlight(s, e, true)} :: e in s.audio ==> FromFlight(s, e, true))
  }

  ghost predicate Sound(s: State) {
    Flying(s) && Counted(s) && Limited(s) && Told(s) && CachesBounded(s) && CachesTrue(s)
  }

  /** A step that is not possible changes nothing. A serial number names one flight and a
      caller calls once. */
  ghost function After(s: State, step: Step): State
    requires Sound(s)
  {
    match step
    case Enter(caller, _, _, _, _, _, serial) =>
      if caller in s.callers || caller in s.got || serial in s.flights then s else Entered(s, step).0
    case Acquire(f) =>
      if f !in s.flights || !s.flights[f].stage.Queued? || s.slots >= SLOTS then s
      else Staged(s, f, Slotted).(slots := s.slots + 1)
    case GiveUp(f) =>
      if f !in s.flights || !s.flights[f].stage.Queued? || !s.flights[f].cancelled then s
      else Staged(s, f, Drained(Failed(TimedOut)))
    case Begin(f) =>
      if f !in s.flights || !s.flights[f].stage.Slotted? then s
      else Staged(s, f, Running).(active := s.active + 1)
    case Return(f, outcome) =>
      if f !in s.flights || !s.flights[f].stage.Running? || s.active == 0 then s
      else Staged(s, f, Returned(outcome)).(active := s.active - 1)
    case Free(f) =>
      if f !in s.flights || !s.flights[f].stage.Returned? || s.slots == 0 then s
      else Staged(s, f, Drained(s.flights[f].stage.outcome)).(slots := s.slots - 1)
    case Check(f) =>
      if f !in s.flights || !s.flights[f].stage.Drained? then s
      else Staged(s, f, Checked(if s.flights[f].cancelled then Failed(TimedOut) else s.flights[f].stage.outcome))
    case Complete(f, now) =>
      if f !in s.flights || !s.flights[f].stage.Checked? then s else Completed(s, f, now)
    case Receive(caller) =>
      if caller !in s.callers || !s.flights[s.callers[caller]].stage.Finished? then s
      else
        var f := s.callers[caller];
        CallerCounted(s, caller);
        Left(s, caller).(got := s.got[caller := (f, s.flights[f].stage.outcome)])
    case Leave(caller) =>
      if caller !in s.callers then s
      else
        CallerCounted(s, caller);
        Left(s, caller)
    case Expire(f) =>
      if f !in s.flights then s else s.(flights := s.flights[f := s.flights[f].(cancelled := true)])
    case Close => s.(closed := true, flights := AllCancelled(s))
    case Clear => if s.closed && AllFinished(s.flights) then Emptied(s) else s
  }

  lemma CallerCounted(s: State, caller: Id)
    requires Counted(s) && caller in s.callers
    ensures s.waiting > 0 && s.callers[caller] in s.flights && s.flights[s.callers[caller]].waiters > 0
  {
    assert caller in WaitingOn(s.callers, s.callers[caller]);
    assert caller in s.callers.Keys && |s.callers.Keys| == |s.callers|;
  }

  /** What Call tells its caller before any waiting. */
  ghost function ReplyTo(s: State, step: Step): Reply
    requires Sound(s) && step.Enter?
  {
    Entered(s, step).1
  }
}
