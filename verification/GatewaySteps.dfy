/** Every step of the gateway keeps its invariant, and what callers may rely on. */
module GatewaySteps {
  import opened Domain
  import Budget
  import Cache
  import opened Gateway

  // ---------- Stages of a flight ----------

  lemma StagedKeeps(s: State, f: Id, stage: Stage, slots: nat, active: nat)
    requires Sound(s) && f in s.flights && !s.flights[f].stage.Finished? && !stage.Finished?
    ensures
      var t := Staged(s, f, stage).(slots := slots, active := active);
      Flying(t) && Counted(t) && Told(t) && CachesBounded(t) && CachesTrue(t)
  {
    hide CachesBounded, CachesTrue, Told, WaitingOn, Limited;
    var t := Staged(s, f, stage).(slots := slots, active := active);
    CachesStay(s, t);
    ToldStay(s, t);
  }

  /** Finished flights stay as they are. */
  ghost predicate FinishedStay(s: State, t: State) {
    forall f :: f in s.flights && s.flights[f].stage.Finished? ==>
      f in t.flights && t.flights[f].key == s.flights[f].key && t.flights[f].speech == s.flights[f].speech
      && t.flights[f].stage == s.flights[f].stage
  }

  lemma StillFrom(s: State, t: State, e: Cache.Entry, speech: bool)
    requires FromFlight(s, e, speech) && FinishedStay(s, t)
    ensures FromFlight(t, e, speech)
  {
    var f :| f in s.flights && s.flights[f].key == e.key && s.flights[f].speech == speech
      && s.flights[f].stage == Finished(Data(e.data));
    assert t.flights[f].stage == Finished(Data(e.data));
  }

  lemma CachesStay(s: State, t: State)
    requires FinishedStay(s, t) && t.text == s.text && t.audio == s.audio
    ensures CachesBounded(s) ==> CachesBounded(t)
    ensures CachesTrue(s) ==> CachesTrue(t)
  {
    hide Cache.OneEach, Cache.Bounded, FinishedStay;
    if CachesTrue(s) {
      forall e | e in s.text ensures FromFlight(t, e, false) { StillFrom(s, t, e, false); }
      forall e | e in s.audio ensures FromFlight(t, e, true) { StillFrom(s, t, e, true); }
    }
  }

  lemma ToldStay(s: State, t: State)
    requires FinishedStay(s, t) && t.got == s.got && Told(s)
    ensures Told(t)
  {
  }

  lemma HoldersAfter(flights: map<Id, Flight>, f: Id, stage: Stage)
    requires f in flights
    ensures
      var moved := flights[f := flights[f].(stage := stage)];
      && Holders(moved) == (if Holds(stage) then Holders(flights) + {f} else Holders(flights) - {f})
      && Callees(moved) == (if stage.Running? then Callees(flights) + {f} else Callees(flights) - {f})
  {
  }

  lemma SetPlus(x: set<Id>, f: Id)
    ensures |x + {f}| == |x| + (if f in x then 0 else 1)
    ensures |x - {f}| == |x| - (if f in x then 1 else 0)
  {
    if f in x {
      assert x + {f} == x;
    } else {
      assert x - {f} == x;
    }
  }

  /** A change of stage that keeps the number of slots and calls in step. */
  lemma StageLimited(s: State, f: Id, stage: Stage)
    requires Sound(s) && f in s.flights
    ensures
      var t := Staged(s, f, stage);
      var was := s.flights[f].stage;
      && |t.table| <= FLIGHTS
      && |Holders(t.flights)| == s.slots + (if Holds(stage) then 1 else 0) - (if Holds(was) then 1 else 0)
      && |Callees(t.flights)| == s.active + (if stage.Running? then 1 else 0) - (if was.Running? then 1 else 0)
  {
    hide Flying, Counted, Told, CachesBounded, CachesTrue;
    HoldersAfter(s.flights, f, stage);
    SetPlus(Holders(s.flights), f);
    SetPlus(Callees(s.flights), f);
  }

  lemma StageStepSound(s: State, step: Step)
    requires Sound(s)
    requires step.Acquire? || step.GiveUp? || step.Begin? || step.Return? || step.Free? || step.Check?
    ensures Sound(After(s, step))
  {
    hide Flying, Counted, Told, CachesBounded, CachesTrue, Holders, Callees;
    var t := After(s, step);
    if step.f in s.flights && t != s {
      StagedKeeps(s, step.f, t.flights[step.f].stage, t.slots, t.active);
      StageLimited(s, step.f, t.flights[step.f].stage);
    }
  }

  // ---------- Cancellation ----------

  ghost predicate OnlyCancelled(a: map<Id, Flight>, b: map<Id, Flight>) {
    && (forall f :: f in a <==> f in b)
    && forall f :: f in a ==> b[f] == a[f].(cancelled := b[f].cancelled)
  }

  lemma CancelSound(s: State, t: State)
    requires Sound(s) && t == s.(flights := t.flights, closed := t.closed) && OnlyCancelled(s.flights, t.flights)
    ensures Sound(t)
  {
    hide CachesBounded, CachesTrue, Told, WaitingOn, Limited, Holders, Callees;
    LimitedTable(s);
    SameHolders(s, t);
    CachesStay(s, t);
    ToldStay(s, t);
  }

  /** Slots and calls depend on the stages only. */
  lemma SameHolders(s: State, t: State)
    requires forall f :: f in s.flights ==> f in t.flights && t.flights[f].stage == s.flights[f].stage
    requires forall f :: f in t.flights && f !in s.flights ==> t.flights[f].stage.Queued?
    requires t.slots == s.slots && t.active == s.active && Limited(s) && |t.table| <= FLIGHTS
    ensures Limited(t)
  {
    assert Holders(t.flights) == Holders(s.flights);
    assert Callees(t.flights) == Callees(s.flights);
  }

  // ---------- Coming and going ----------

  lemma WaitersPlus(callers: map<Id, Id>, caller: Id, f: Id, g: Id)
    requires caller !in callers
    ensures |WaitingOn(callers[caller := f], g)| == |WaitingOn(callers, g)| + (if f == g then 1 else 0)
    ensures |callers[caller := f]| == |callers| + 1
  {
    var more := callers[caller := f];
    assert WaitingOn(more, g) == if f == g then WaitingOn(callers, g) + {caller} else WaitingOn(callers, g);
    assert caller !in WaitingOn(callers, g);
    assert more.Keys == callers.Keys + {caller};
    assert |more.Keys| == |more| && |callers.Keys| == |callers|;
  }

  lemma WaitersMinus(callers: map<Id, Id>, caller: Id, g: Id)
    requires caller in callers
    ensures |WaitingOn(callers - {caller}, g)| == |WaitingOn(callers, g)| - (if callers[caller] == g then 1 else 0)
    ensures |callers - {caller}| == |callers| - 1
  {
    var less := callers - {caller};
    assert WaitingOn(less, g)
      == if callers[caller] == g then WaitingOn(callers, g) - {caller} else WaitingOn(callers, g);
    assert less.Keys == callers.Keys - {caller};
    assert |less.Keys| == |less| && |callers.Keys| == |callers|;
  }

  lemma JoinedCounted(s: State, caller: Id, f: Id)
    requires Counted(s) && caller !in s.callers && f in s.flights
    requires s.waiting < WAITING && s.flights[f].waiters < PER_FLIGHT
    ensures Counted(Joined(s, caller, f))
  {
    hide WaitingOn;
    var t := Joined(s, caller, f);
    WaitersPlus(s.callers, caller, f, f);
    forall g | g in t.flights
      ensures t.flights[g].waiters == |WaitingOn(t.callers, g)| <= PER_FLIGHT
    {
      WaitersPlus(s.callers, caller, f, g);
    }
  }

  lemma JoinedRest(s: State, caller: Id, f: Id)
    requires Flying(s) && Limited(s) && Told(s) && CachesBounded(s) && CachesTrue(s) && f in s.flights
    ensures
      var t := Joined(s, caller, f);
      Flying(t) && Limited(t) && Told(t) && CachesBounded(t) && CachesTrue(t)
  {
    hide CachesBounded, CachesTrue, Told, Limited;
    var t := Joined(s, caller, f);
    LimitedTable(s);
    SameHolders(s, t);
    CachesStay(s, t);
    ToldStay(s, t);
  }

  lemma LimitedTable(s: State)
    requires Limited(s)
    ensures |s.table| <= FLIGHTS
  {
  }

  lemma LookedSound(s: State, step: Step)
    requires Sound(s) && step.Enter?
    ensures Sound(Looked(s, step).0)
  {
    hide Flying, Counted, Limited, Told, Cache.AfterGet, Cache.OneEach, Cache.Bounded;
    Cache.GetKeeps(s.audio, step.key, step.now, AUDIO_ENTRIES, AUDIO_BYTES);
    Cache.GetKeeps(s.text, step.key, step.now, TEXT_ENTRIES, TEXT_BYTES);
    var t := Looked(s, step).0;
    LookedFrame(s, step);
    SameFlights(s, t);
    forall e | e in t.text ensures FromFlight(t, e, false) { StillFrom(s, t, e, false); }
    forall e | e in t.audio ensures FromFlight(t, e, true) { StillFrom(s, t, e, true); }
  }

  lemma LookedFrame(s: State, step: Step)
    requires step.Enter?
    ensures Looked(s, step).0 == s.(text := Looked(s, step).0.text, audio := Looked(s, step).0.audio)
    ensures Looked(s, step).0.text in {s.text, Cache.AfterGet(s.text, step.key, step.now).0}
    ensures Looked(s, step).0.audio in {s.audio, Cache.AfterGet(s.audio, step.key, step.now).0}
  {
    hide Cache.AfterGet;
  }

  lemma SameFlights(s: State, t: State)
    requires t == s.(text := t.text, audio := t.audio, budget := t.budget)
    ensures Flying(s) ==> Flying(t)
    ensures Counted(s) ==> Counted(t)
    ensures Limited(s) ==> Limited(t)
    ensures Told(s) ==> Told(t)
  {
  }

  lemma BudgetSound(s: State, budget: Budget.State)
    requires Sound(s)
    ensures Sound(s.(budget := budget))
  {
    hide Flying, Counted, Limited, Told, Cache.OneEach, Cache.Bounded;
    var t := s.(budget := budget);
    SameFlights(s, t);
    forall e | e in t.text ensures FromFlight(t, e, false) { StillFrom(s, t, e, false); }
    forall e | e in t.audio ensures FromFlight(t, e, true) { StillFrom(s, t, e, true); }
  }

  function WithFlight(s: State, key: Id, speech: bool, serial: Id): State {
    s.(table := s.table[key := serial], flights := s.flights[serial := Flight(key, speech, 0, false, Queued)])
  }

  lemma NewFlightFlying(s: State, key: Id, speech: bool, serial: Id)
    requires Flying(s) && Counted(s) && key !in s.table && serial !in s.flights
    ensures Flying(WithFlight(s, key, speech, serial)) && Counted(WithFlight(s, key, speech, serial))
  {
    assert WaitingOn(s.callers, serial) == {};
  }

  /** A new flight, for a key that has none. */
  lemma NewFlightSound(s: State, key: Id, speech: bool, serial: Id)
    requires Sound(s) && key !in s.table && serial !in s.flights && |s.table| < FLIGHTS
    ensures Sound(WithFlight(s, key, speech, serial))
  {
    hide CachesBounded, CachesTrue, Told, Limited, Flying, Counted;
    var t := WithFlight(s, key, speech, serial);
    assert t.table.Keys == s.table.Keys + {key};
    assert |t.table.Keys| == |t.table| && |s.table.Keys| == |s.table|;
    SameHolders(s, t);
    NewFlightFlying(s, key, speech, serial);
    CachesStay(s, t);
    ToldStay(s, t);
  }

  lemma JoinSound(s: State, caller: Id, f: Id)
    requires Sound(s) && caller !in s.callers && f in s.flights
    requires s.waiting < WAITING && s.flights[f].waiters < PER_FLIGHT
    ensures Sound(Joined(s, caller, f))
  {
    hide Flying, Counted, Limited, Told, CachesBounded, CachesTrue;
    JoinedCounted(s, caller, f);
    JoinedRest(s, caller, f);
  }

  lemma EnterSound(s: State, step: Step)
    requires Sound(s) && step.Enter?
    ensures Sound(After(s, step))
  {
    hide Sound, Looked, Joined, Budget.Step, Cache.AfterGet;
    TableOf(s, step.key);
    if !(step.caller in s.callers || step.caller in s.got || step.serial in s.flights) && !s.closed {
      var (t, hit) := Looked(s, step);
      LookedSound(s, step);
      LookedFrame(s, step);
      if hit.None? && t.waiting < WAITING {
        if step.key in t.table {
          if t.flights[t.table[step.key]].waiters < PER_FLIGHT {
            JoinSound(t, step.caller, t.table[step.key]);
          }
        } else if |t.table| < FLIGHTS {
          var (budget, allowed) := Budget.Step(t.budget, (step.owner, step.kind), step.now);
          BudgetSound(t, budget);
          if allowed {
            NewFlightSound(t.(budget := budget), step.key, step.speech, step.serial);
            var u := WithFlight(t.(budget := budget), step.key, step.speech, step.serial);
            JoinSound(u, step.caller, step.serial);
          }
        }
      }
    }
  }

  lemma TableOf(s: State, key: Id)
    requires Sound(s)
    ensures key in s.table ==> s.table[key] in s.flights
  {
    hide Counted, Limited, Told, CachesBounded, CachesTrue;
  }

  lemma LeftCounted(s: State, caller: Id)
    requires Counted(s) && caller in s.callers && s.callers[caller] in s.flights
    requires s.waiting > 0 && s.flights[s.callers[caller]].waiters > 0
    ensures Counted(Left(s, caller))
  {
    hide WaitingOn;
    var t := Left(s, caller);
    WaitersMinus(s.callers, caller, s.callers[caller]);
    forall g | g in t.flights
      ensures t.flights[g].waiters == |WaitingOn(t.callers, g)| <= PER_FLIGHT
    {
      WaitersMinus(s.callers, caller, g);
    }
  }

  lemma LeftSound(s: State, caller: Id)
    requires Sound(s) && caller in s.callers && s.callers[caller] in s.flights
    requires s.waiting > 0 && s.flights[s.callers[caller]].waiters > 0
    ensures Sound(Left(s, caller))
  {
    hide CachesBounded, CachesTrue, Told, Limited, Counted;
    var t := Left(s, caller);
    LeftCounted(s, caller);
    LimitedTable(s);
    SameHolders(s, t);
    CachesStay(s, t);
    ToldStay(s, t);
  }

  lemma ToldMore(s: State, caller: Id, f: Id, outcome: Outcome)
    requires Sound(s) && f in s.flights && s.flights[f].stage == Finished(outcome)
    ensures Sound(s.(got := s.got[caller := (f, outcome)]))
  {
    hide CachesBounded, CachesTrue, Counted, Limited, Flying;
    var t := s.(got := s.got[caller := (f, outcome)]);
    OnlyGot(s, t);
    CachesStay(s, t);
  }

  lemma OnlyGot(s: State, t: State)
    requires t == s.(got := t.got)
    ensures Flying(s) ==> Flying(t)
    ensures Counted(s) ==> Counted(t)
    ensures Limited(s) ==> Limited(t)
  {
  }

  lemma GoSound(s: State, step: Step)
    requires Sound(s) && (step.Receive? || step.Leave?)
    ensures Sound(After(s, step))
  {
    hide Flying, Limited, Told, CachesBounded, CachesTrue;
    if step.caller in s.callers {
      CallerCounted(s, step.caller);
      LeftSound(s, step.caller);
      var f := s.callers[step.caller];
      if step.Receive? && s.flights[f].stage.Finished? {
        ToldMore(Left(s, step.caller), step.caller, f, s.flights[f].stage.outcome);
      }
    }
  }

  // ---------- Completion ----------

  lemma PutFrom(entries: seq<Cache.Entry>, key: Id, data: Cache.Bytes, now: int, n: nat, max: nat, e: Cache.Entry)
    requires n > 0 && e in Cache.AfterPut(entries, key, data, now, n, max)
    ensures e in entries || (e.key == key && e.data == data)
  {
    if |data| <= max {
      var kept := Cache.Trimmed(Cache.Without(entries, key), n, max - |data|);
      if e in kept {
        assert e in Cache.Without(entries, key);
      }
    }
  }

  lemma PutFromFlight(s: State, t: State, f: Id, earlier: seq<Cache.Entry>, now: int, n: nat, max: nat, speech: bool)
    requires n > 0 && f in s.flights && s.flights[f].stage.Checked? && s.flights[f].stage.outcome.Data?
    requires s.flights[f].speech == speech && FinishedStay(s, t) && f in t.flights
    requires t.flights[f] == s.flights[f].(stage := Finished(s.flights[f].stage.outcome))
    requires forall e :: e in earlier ==> FromFlight(s, e, speech)
    ensures
      var key, data := s.flights[f].key, s.flights[f].stage.outcome.bytes;
      forall e :: e in Cache.AfterPut(earlier, key, data, now, n, max) ==> FromFlight(t, e, speech)
  {
    hide Cache.AfterPut, FinishedStay;
    var key, data := s.flights[f].key, s.flights[f].stage.outcome.bytes;
    forall e | e in Cache.AfterPut(earlier, key, data, now, n, max)
      ensures FromFlight(t, e, speech)
    {
      PutFrom(earlier, key, data, now, n, max, e);
      if e in earlier {
        StillFrom(s, t, e, speech);
      }
    }
  }

  lemma CompleteCaches(s: State, f: Id, now: int)
    requires Sound(s) && f in s.flights && s.flights[f].stage.Checked?
    ensures CachesBounded(Completed(s, f, now)) && CachesTrue(Completed(s, f, now))
  {
    hide Flying, Counted, Limited, Told, Cache.OneEach, Cache.Bounded, Cache.AfterPut, FromFlight, FinishedStay;
    var flight, t := s.flights[f], Completed(s, f, now);
    CompletedFrame(s, f, now);
    CompletedStay(s, f, t);
    CompletedStay(s, f, t.(text := s.text, audio := s.audio));
    CachesStay(s, t.(text := s.text, audio := s.audio));
    if flight.stage.outcome.Data? && flight.waiters > 0 {
      var data := flight.stage.outcome.bytes;
      Cache.PutKeeps(s.audio, flight.key, data, now, AUDIO_ENTRIES, AUDIO_BYTES);
      Cache.PutKeeps(s.text, flight.key, data, now, TEXT_ENTRIES, TEXT_BYTES);
      if flight.speech {
        PutFromFlight(s, t, f, s.audio, now, AUDIO_ENTRIES, AUDIO_BYTES, true);
      } else {
        PutFromFlight(s, t, f, s.text, now, TEXT_ENTRIES, TEXT_BYTES, false);
      }
    }
    SameFrom(t.(text := s.text, audio := s.audio), t);
  }

  lemma SameFrom(s: State, t: State)
    requires t.flights == s.flights
    ensures forall e, speech :: FromFlight(s, e, speech) ==> FromFlight(t, e, speech)
  {
  }

  lemma CompletedFrame(s: State, f: Id, now: int)
    requires f in s.flights && s.flights[f].stage.Checked?
    ensures
      var flight, t := s.flights[f], Completed(s, f, now);
      && t.flights == s.flights[f := flight.(stage := Finished(flight.stage.outcome))]
      && t.callers == s.callers && t.waiting == s.waiting && t.got == s.got
      && t.slots == s.slots && t.active == s.active
      && t.text == Kept(s, flight, now).text && t.audio == Kept(s, flight, now).audio
      && t.table == if flight.key in s.table && s.table[flight.key] == f then s.table - {flight.key} else s.table
  {
    hide Kept;
    KeptFrame(s, s.flights[f], now);
  }

  lemma CompletedStay(s: State, f: Id, t: State)
    requires f in s.flights && s.flights[f].stage.Checked?
    requires t.flights == s.flights[f := s.flights[f].(stage := Finished(s.flights[f].stage.outcome))]
    ensures FinishedStay(s, t)
  {
  }

  lemma CompleteSound(s: State, f: Id, now: int)
    requires Sound(s) && f in s.flights && s.flights[f].stage.Checked?
    ensures Sound(Completed(s, f, now))
  {
    hide CachesBounded, CachesTrue, Completed, Told, Flying, Counted, Limited, FinishedStay;
    var t := Completed(s, f, now);
    CompleteCaches(s, f, now);
    CompletedFrame(s, f, now);
    CompletedStay(s, f, t);
    ToldStay(s, t);
    CompleteLimited(s, f, t);
    CompleteFlying(s, f, t);
    CompleteCounted(s, f, t);
  }

  lemma CompleteFlying(s: State, f: Id, t: State)
    requires Flying(s) && f in s.flights && s.flights[f].stage.Checked?
    requires t.flights == s.flights[f := s.flights[f].(stage := Finished(s.flights[f].stage.outcome))]
    requires t.table == if s.flights[f].key in s.table && s.table[s.flights[f].key] == f
      then s.table - {s.flights[f].key} else s.table
    ensures Flying(t)
  {
  }

  lemma CompleteCounted(s: State, f: Id, t: State)
    requires Counted(s) && f in s.flights && s.flights[f].stage.Checked?
    requires t.flights == s.flights[f := s.flights[f].(stage := Finished(s.flights[f].stage.outcome))]
    requires t.callers == s.callers && t.waiting == s.waiting
    ensures Counted(t)
  {
    hide WaitingOn;
  }

  lemma CompleteLimited(s: State, f: Id, t: State)
    requires Limited(s) && f in s.flights && s.flights[f].stage.Checked?
    requires t.flights == s.flights[f := s.flights[f].(stage := Finished(s.flights[f].stage.outcome))]
    requires t.slots == s.slots && t.active == s.active
    requires t.table == s.table || t.table == s.table - {s.flights[f].key}
    ensures Limited(t)
  {
    HoldersAfter(s.flights, f, Finished(s.flights[f].stage.outcome));
    assert f !in Holders(s.flights) && f !in Callees(s.flights);
    assert t.table.Keys <= s.table.Keys;
    Smaller(t.table.Keys, s.table.Keys);
    assert |t.table.Keys| == |t.table| && |s.table.Keys| == |s.table|;
  }

  lemma KeptFrame(s: State, flight: Flight, now: int)
    requires flight.stage.Checked?
    ensures Kept(s, flight, now) == s.(text := Kept(s, flight, now).text, audio := Kept(s, flight, now).audio)
  {
    hide Cache.AfterPut;
  }

  /** The invariant holds of every interleaving. */
  lemma StepKeepsSound(s: State, step: Step)
    requires Sound(s)
    ensures Sound(After(s, step))
  {
    hide Sound, Completed, Left, AllCancelled, Entered;
    match step {
      case Enter(_, _, _, _, _, _, _) => EnterSound(s, step);
      case Complete(f, now) =>
        if f in s.flights && s.flights[f].stage.Checked? {
          CompleteSound(s, f, now);
        }
      case Receive(_) => GoSound(s, step);
      case Leave(_) => GoSound(s, step);
      case Expire(f) =>
        if f in s.flights {
          CancelSound(s, After(s, step));
        }
      case Close =>
        AllAreCancelled(s);
        CancelSound(s, After(s, step));
      case Clear => EmptiedSound(s);
      case _ => StageStepSound(s, step);
    }
  }

  lemma EmptiedSound(s: State)
    requires Sound(s)
    ensures Sound(Emptied(s))
  {
    hide Flying, Counted, Limited, Told;
    SameFlights(s, Emptied(s));
  }

  lemma AllAreCancelled(s: State)
    ensures OnlyCancelled(s.flights, AllCancelled(s))
  {
  }

  // ---------- Runs ----------

  function Start(): State {
    State(false, map[], map[], map[], 0, 0, 0, [], [], Budget.State(map[], None, []), map[])
  }

  lemma StartIsSound()
    ensures Sound(Start())
  {
    assert Holders(map[]) == {} && Callees(map[]) == {};
  }

  ghost function Run(s: State, steps: seq<Step>): State
    requires Sound(s)
    decreases |steps|
  {
    if steps == [] then s
    else
      StepKeepsSound(s, steps[0]);
      Run(After(s, steps[0]), steps[1..])
  }

  lemma {:induction false} RunIsSound(s: State, steps: seq<Step>)
    requires Sound(s)
    ensures Sound(Run(s, steps))
    decreases |steps|
  {
    hide Sound, After;
    if steps != [] {
      StepKeepsSound(s, steps[0]);
      RunIsSound(After(s, steps[0]), steps[1..]);
    }
  }

  ghost predicate SameWork(s: State, f: Id, g: Id) {
    && f in s.flights && g in s.flights && s.flights[f].key == s.flights[g].key
    && !s.flights[f].stage.Finished? && !s.flights[g].stage.Finished?
  }

  /** At any moment of any run: at most 8 flights have a key, one each; at most 32 callers
      wait, at most 16 on a flight; at most 2 provider calls are under way. */
  lemma AlwaysWithinLimits(steps: seq<Step>)
    ensures Sound(Start())
    ensures
      var s := Run(Start(), steps);
      && |s.table| <= FLIGHTS && s.active <= s.slots <= SLOTS && |Callees(s.flights)| == s.active
      && s.waiting == |s.callers| <= WAITING
      && (forall f :: f in s.flights ==> s.flights[f].waiters == |WaitingOn(s.callers, f)| <= PER_FLIGHT)
      && (forall f, g :: SameWork(s, f, g) ==> f == g)
  {
    hide CachesBounded, CachesTrue, WaitingOn, Told, Run;
    StartIsSound();
    RunIsSound(Start(), steps);
    var s := Run(Start(), steps);
    assert Callees(s.flights) <= Holders(s.flights);
    Smaller(Callees(s.flights), Holders(s.flights));
  }

  lemma Smaller(x: set<Id>, y: set<Id>)
    requires x <= y
    ensures |x| <= |y|
  {
    assert y == x + (y - x);
  }

  /** Callers of one flight who were given a result were given the same one. */
  lemma SameResult(steps: seq<Step>, a: Id, b: Id)
    ensures Sound(Start())
    ensures
      var s := Run(Start(), steps);
      a in s.got && b in s.got && s.got[a].0 == s.got[b].0 ==> s.got[a].1 == s.got[b].1
  {
    hide CachesBounded, CachesTrue, Flying, Counted, Limited, Run;
    StartIsSound();
    RunIsSound(Start(), steps);
  }

  // ---------- The sum of the waiters ----------

  ghost function SumWaiters(flights: map<Id, Flight>, ids: set<Id>): nat
    requires ids <= flights.Keys
    decreases |ids|
  {
    if ids == {} then 0
    else
      var f :| f in ids;
      flights[f].waiters + SumWaiters(flights, ids - {f})
  }

  function CallersOf(callers: map<Id, Id>, ids: set<Id>): set<Id> {
    set c | c in callers && callers[c] in ids
  }

  lemma {:induction false} SumCounts(flights: map<Id, Flight>, callers: map<Id, Id>, ids: set<Id>)
    requires ids <= flights.Keys && forall f :: f in ids ==> flights[f].waiters == |WaitingOn(callers, f)|
    ensures SumWaiters(flights, ids) == |CallersOf(callers, ids)|
    decreases |ids|
  {
    if ids == {} {
      assert CallersOf(callers, ids) == {};
    } else {
      var f :| f in ids && SumWaiters(flights, ids) == flights[f].waiters + SumWaiters(flights, ids - {f});
      SumCounts(flights, callers, ids - {f});
      var others := CallersOf(callers, ids - {f});
      assert CallersOf(callers, ids) == WaitingOn(callers, f) + others && WaitingOn(callers, f) !! others;
    }
  }

  /** `waiting` is the sum of the waiters of all flights, finished ones included. */
  lemma WaitingIsTheSum(s: State)
    requires Sound(s)
    ensures s.waiting == SumWaiters(s.flights, s.flights.Keys)
  {
    hide CachesBounded, CachesTrue, Flying, Limited, Told;
    SumCounts(s.flights, s.callers, s.flights.Keys);
    assert CallersOf(s.callers, s.flights.Keys) == s.callers.Keys;
    assert |s.callers.Keys| == |s.callers|;
  }
}
