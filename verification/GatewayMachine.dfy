/** The gateway as the program has it: an object whose maps and counters the sections
    under its mutex change. */
module GatewayMachine {
  import opened Domain
  import Budget
  import Cache
  import opened Gateway
  import opened GatewaySteps

  class Machine {
    var closed: bool
    var flights: map<Id, Flight>
    var table: map<Id, Id>
    var callers: map<Id, Id>
    var waiting: nat
    var active: nat
    var slots: nat
    var text: seq<Cache.Entry>
    var audio: seq<Cache.Entry>
    var windows: map<Budget.Key, Budget.Window>
    var hour: Option<Budget.Window>
    ghost var log: seq<Budget.Admission>
    ghost var got: map<Id, (Id, Outcome)>

    ghost function Budgets(): Budget.State
      reads this
    {
      Budget.State(windows, hour, log)
    }

    ghost function Now(): State
      reads this
    {
      State(closed, flights, table, callers, waiting, active, slots, text, audio, Budgets(), got)
    }

    constructor ()
      ensures Now() == Start() && Sound(Now())
    {
      closed, flights, table, callers := false, map[], map[], map[];
      waiting, active, slots := 0, 0, 0;
      text, audio, windows, hour, log, got := [], [], map[], None, [], map[];
      new;
      StartIsSound();
    }

    // ---------- Budgets ----------

    method DropExpired(now: int)
      modifies this
      ensures Now() == old(Now()).(budget := old(Budgets()).(windows := Budget.Expired(old(windows), now)))
    {
      ghost var before := windows;
      var rest := windows.Keys;
      while rest != {}
        invariant rest <= before.Keys
        invariant windows == map k | k in before && (k in rest || now - before[k].start < Budget.MINUTE) :: before[k]
        invariant Now() == old(Now()).(budget := old(Budgets()).(windows := windows))
        decreases |rest|
      {
        var k :| k in rest;
        if now - windows[k].start >= Budget.MINUTE {
          windows := windows - {k};
        }
        rest := rest - {k};
      }
      assert windows == Budget.Expired(before, now);
    }

    method Allow(owner: Id, kind: Budget.Kind, now: int) returns (ok: bool)
      modifies this
      ensures (Budgets(), ok) == Budget.Step(old(Budgets()), (owner, kind), now)
      ensures Now() == old(Now()).(budget := Budgets())
    {
      hide Budget.Expired;
      var cap := Budget.Cap(kind);
      DropExpired(now);
      var key := (owner, kind);
      var w := Budget.Window(now, 0);
      if key in windows {
        w := windows[key];
      } else if |windows| >= Budget.OWNERS {
        return false;
      }
      if hour.None? || now - hour.value.start >= Budget.HOUR {
        hour := Some(Budget.Window(now, 0));
      }
      if w.count >= cap || hour.value.count >= Budget.HOURLY {
        return false;
      }
      windows := windows[key := w.(count := w.count + 1)];
      log := log + [Budget.Admission(key, now, w.start, hour.value.start)];
      hour := Some(hour.value.(count := hour.value.count + 1));
      ok := true;
    }

    // ---------- A call ----------

    method LookUp(speech: bool, key: Id, now: int) returns (hit: Option<Cache.Bytes>)
      modifies this
      ensures forall caller, owner, kind, serial ::
        (Now(), hit) == Looked(old(Now()), Enter(caller, owner, kind, speech, key, now, serial))
    {
      hide Cache.AfterGet;
      if speech {
        var (entries, found) := Cache.AfterGet(audio, key, now);
        audio, hit := entries, found;
      } else {
        var (entries, found) := Cache.AfterGet(text, key, now);
        text, hit := entries, found;
      }
    }

    method Join(caller: Id, f: Id)
      requires f in flights
      modifies this
      ensures Now() == Joined(old(Now()), caller, f)
    {
      flights := flights[f := flights[f].(waiters := flights[f].waiters + 1)];
      callers := callers[caller := f];
      waiting := waiting + 1;
    }

    /** Call, up to the point where the caller waits. */
    method Call(caller: Id, owner: Id, kind: Budget.Kind, speech: bool, key: Id, now: int, serial: Id)
        returns (reply: Reply)
      requires Sound(Now()) && caller !in callers && caller !in got && serial !in flights
      modifies this
      ensures Sound(Now()) && Now() == After(old(Now()), Enter(caller, owner, kind, speech, key, now, serial))
      ensures reply == ReplyTo(old(Now()), Enter(caller, owner, kind, speech, key, now, serial))
    {
      hide Sound, Looked, Budget.Step, Joined, After;
      ghost var step := Enter(caller, owner, kind, speech, key, now, serial);
      ghost var before := Now();
      StepKeepsSound(before, step);
      TableOf(before, key);
      EnterEffect(before, step);
      LookedFrame(before, step);
      if closed {
        return Refused(Unavailable);
      }
      var hit := LookUp(speech, key, now);
      assert (Now(), hit) == Looked(before, step);
      if hit.Some? {
        return Hit(hit.value);
      }
      if waiting >= WAITING {
        return Refused(Busy);
      }
      if key in table {
        if flights[table[key]].waiters >= PER_FLIGHT {
          return Refused(Busy);
        }
        var f := table[key];
        Join(caller, f);
        return Waits(f);
      }
      if |table| >= FLIGHTS {
        return Refused(Busy);
      }
      var allowed := Allow(owner, kind, now);
      if !allowed {
        return Refused(RateLimited);
      }
      flights := flights[serial := Flight(key, speech, 0, false, Queued)];
      table := table[key := serial];
      Join(caller, serial);
      reply := Waits(serial);
    }

    /** The deferred section of a call that was waiting. */
    method Depart(caller: Id)
      requires caller in callers && callers[caller] in flights && waiting > 0 && flights[callers[caller]].waiters > 0
      modifies this
      ensures Now() == Left(old(Now()), caller) && got == old(got)
    {
      var f := callers[caller];
      waiting := waiting - 1;
      flights := flights[f := flights[f].(waiters := flights[f].waiters - 1)];
      if flights[f].waiters == 0 {
        flights := flights[f := flights[f].(cancelled := true)];
      }
      callers := callers - {caller};
    }

    method Cancelled(caller: Id)
      requires Sound(Now()) && caller in callers
      modifies this
      ensures Sound(Now()) && Now() == After(old(Now()), Leave(caller))
    {
      hide Sound, Left;
      StepKeepsSound(Now(), Leave(caller));
      CountedOf(Now());
      CallerCounted(Now(), caller);
      Depart(caller);
    }

    method Answered(caller: Id) returns (outcome: Outcome)
      requires Sound(Now()) && caller in callers && callers[caller] in flights
        && flights[callers[caller]].stage.Finished?
      modifies this
      ensures Sound(Now()) && Now() == After(old(Now()), Receive(caller))
      ensures outcome == old(flights[callers[caller]].stage.outcome)
    {
      hide Sound, Left;
      StepKeepsSound(Now(), Receive(caller));
      CountedOf(Now());
      CallerCounted(Now(), caller);
      var f := callers[caller];
      outcome := flights[f].stage.outcome;
      Depart(caller);
      got := got[caller := (f, outcome)];
    }

    // ---------- A flight ----------

    method TakeSlot(f: Id) returns (ok: bool)
      requires Sound(Now()) && f in flights && flights[f].stage.Queued?
      modifies this
      ensures Sound(Now()) && Now() == After(old(Now()), Acquire(f)) && (ok <==> old(slots) < SLOTS)
    {
      hide Sound;
      StepKeepsSound(Now(), Acquire(f));
      if slots >= SLOTS {
        return false;
      }
      slots := slots + 1;
      flights := flights[f := flights[f].(stage := Slotted)];
      ok := true;
    }

    method Activate(f: Id)
      requires Sound(Now()) && f in flights && flights[f].stage.Slotted?
      modifies this
      ensures Sound(Now()) && Now() == After(old(Now()), Begin(f))
    {
      hide Sound;
      StepKeepsSound(Now(), Begin(f));
      active := active + 1;
      flights := flights[f := flights[f].(stage := Running)];
    }

    /** The provider has answered. `active` is not zero: this flight is counted in it. */
    method Deactivate(f: Id, outcome: Outcome)
      requires Sound(Now()) && f in flights && flights[f].stage.Running?
      modifies this
      ensures Sound(Now()) && Now() == After(old(Now()), Return(f, outcome))
      ensures f in flights && flights[f].stage == Returned(outcome)
    {
      hide Sound;
      StepKeepsSound(Now(), Return(f, outcome));
      RunningIsCounted(Now(), f);
      active := active - 1;
      flights := flights[f := flights[f].(stage := Returned(outcome))];
    }

    method FreeSlot(f: Id)
      requires Sound(Now()) && f in flights && flights[f].stage.Returned?
      modifies this
      ensures Sound(Now()) && Now() == After(old(Now()), Free(f))
      ensures f in flights && flights[f].stage.Drained?
    {
      hide Sound;
      StepKeepsSound(Now(), Free(f));
      HolderIsCounted(Now(), f);
      slots := slots - 1;
      flights := flights[f := flights[f].(stage := Drained(flights[f].stage.outcome))];
    }

    method LookAtContext(f: Id)
      requires Sound(Now()) && f in flights && flights[f].stage.Drained?
      modifies this
      ensures Sound(Now()) && Now() == After(old(Now()), Check(f))
    {
      hide Sound;
      StepKeepsSound(Now(), Check(f));
      var outcome := flights[f].stage.outcome;
      if flights[f].cancelled {
        outcome := Failed(TimedOut);
      }
      flights := flights[f := flights[f].(stage := Checked(outcome))];
    }

    method Land(f: Id, now: int)
      requires Sound(Now()) && f in flights && flights[f].stage.Checked?
      modifies this
      ensures Sound(Now()) && Now() == After(old(Now()), Complete(f, now))
    {
      hide Sound, Cache.AfterPut, After;
      StepKeepsSound(Now(), Complete(f, now));
      CompleteEffect(Now(), f, now);
      var flight := flights[f];
      var outcome := flight.stage.outcome;
      flights := flights[f := flight.(stage := Finished(outcome))];
      if outcome.Data? && flight.waiters > 0 {
        if flight.speech {
          audio := Cache.AfterPut(audio, flight.key, outcome.bytes, now, AUDIO_ENTRIES, AUDIO_BYTES);
        } else {
          text := Cache.AfterPut(text, flight.key, outcome.bytes, now, TEXT_ENTRIES, TEXT_BYTES);
        }
      }
      if flight.key in table && table[flight.key] == f {
        table := table - {flight.key};
      }
    }

    static method CancelAll(flights: map<Id, Flight>, table: map<Id, Id>) returns (after: map<Id, Flight>)
      ensures after == map f | f in flights ::
        if flights[f].key in table && table[flights[f].key] == f then flights[f].(cancelled := true) else flights[f]
    {
      after := map[];
      var rest := flights.Keys;
      while rest != {}
        invariant rest <= flights.Keys
        invariant after == map f | f in flights && f !in rest ::
          if flights[f].key in table && table[flights[f].key] == f then flights[f].(cancelled := true) else flights[f]
        decreases |rest|
      {
        var f :| f in rest;
        var flight := flights[f];
        if flight.key in table && table[flight.key] == f {
          flight := flight.(cancelled := true);
        }
        after := after[f := flight];
        rest := rest - {f};
      }
    }

    /** Close, up to its wait. */
    method Shut()
      requires Sound(Now())
      modifies this
      ensures Sound(Now()) && Now() == After(old(Now()), Close)
    {
      hide Sound;
      StepKeepsSound(Now(), Close);
      closed := true;
      flights := CancelAll(flights, table);
      assert flights == AllCancelled(old(Now()));
    }

    /** The rest of Close, when every flight has finished. */
    method Renew()
      requires Sound(Now()) && closed && AllFinished(flights)
      modifies this
      ensures Sound(Now()) && Now() == After(old(Now()), Clear)
    {
      hide Sound;
      StepKeepsSound(Now(), Clear);
      audio, text, windows := [], [], map[];
    }
  }

  lemma EnterEffect(s: State, step: Step)
    requires Sound(s) && step.Enter?
    requires step.caller !in s.callers && step.caller !in s.got && step.serial !in s.flights
    ensures step.key in s.table ==> step.key in s.table && s.table[step.key] in s.flights
    ensures After(s, step) == Entered(s, step).0 && ReplyTo(s, step) == Entered(s, step).1
  {
    hide Sound, Entered;
    TableOf(s, step.key);
  }

  lemma CompleteEffect(s: State, f: Id, now: int)
    requires Sound(s) && f in s.flights && s.flights[f].stage.Checked?
    ensures After(s, Complete(f, now)) == Completed(s, f, now)
  {
    hide Sound, Completed;
  }

  lemma CountedOf(s: State)
    requires Sound(s)
    ensures Counted(s)
  {
    hide Flying, Counted, Limited, Told, CachesBounded, CachesTrue;
  }

  lemma RunningIsCounted(s: State, f: Id)
    requires Sound(s) && f in s.flights && s.flights[f].stage.Running?
    ensures s.active > 0
  {
    hide Flying, Counted, Told, CachesBounded, CachesTrue;
    assert f in Callees(s.flights);
  }

  lemma HolderIsCounted(s: State, f: Id)
    requires Sound(s) && f in s.flights && Holds(s.flights[f].stage)
    ensures s.slots > 0
  {
    hide Flying, Counted, Told, CachesBounded, CachesTrue;
    assert f in Holders(s.flights);
  }
}
