/** What holds over whole runs of the gateway: what a cache hit is, what becomes of an
    abandoned flight, and how many calls the budgets let through. */
module GatewayRuns {
  import opened Domain
  import Budget
  import Cache
  import opened Gateway
  import opened GatewaySteps

  // ---------- Flights and caches ----------

  function Selected(s: State, speech: bool): seq<Cache.Entry> {
    if speech then s.audio else s.text
  }

  predicate Absent(entries: seq<Cache.Entry>, key: Id) {
    forall e :: e in entries ==> e.key != key
  }

  /** While a flight is under way its key is not in its cache: a put never meets an
      older entry. */
  ghost predicate Unshadowed(s: State) {
    forall f :: f in s.flights && !s.flights[f].stage.Finished? ==>
      Absent(Selected(s, s.flights[f].speech), s.flights[f].key)
  }

  /** A flight nobody waits for is cancelled. */
  ghost predicate LastWaiterCancels(s: State) {
    forall f :: f in s.flights && s.flights[f].waiters == 0 ==> s.flights[f].cancelled
  }

  /** A flight goes on: same work, and its stage does not go back from finished. */
  ghost predicate GoesOn(a: Flight, b: Flight) {
    && b.key == a.key && b.speech == a.speech && (a.stage.Finished? ==> b.stage.Finished?)
    && (a.cancelled ==> b.cancelled) && (b.waiters == 0 ==> b.cancelled || a.waiters == 0)
  }

  /** What a step other than a completion does: entries leave the caches at most, flights
      go on, and a new one is for a key that its cache does not hold. */
  ghost predicate Quiet(s: State, t: State) {
    && (forall e :: e in t.text ==> e in s.text)
    && (forall e :: e in t.audio ==> e in s.audio)
    && (forall f :: f in s.flights ==> f in t.flights && GoesOn(s.flights[f], t.flights[f]))
    && (forall f :: f in t.flights && f !in s.flights ==>
          t.flights[f].waiters > 0 && Absent(Selected(t, t.flights[f].speech), t.flights[f].key))
  }

  lemma MissIsAbsent(entries: seq<Cache.Entry>, key: Id, now: int)
    requires Cache.OneEach(entries) && Cache.AfterGet(entries, key, now).1.None?
    ensures Absent(Cache.AfterGet(entries, key, now).0, key)
  {
    Cache.WithoutKeys(entries, key);
  }

  lemma LookedShrinks(s: State, step: Step)
    requires Sound(s) && step.Enter?
    ensures
      var (t, hit) := Looked(s, step);
      && t == s.(text := t.text, audio := t.audio)
      && (forall e :: e in t.text ==> e in s.text) && (forall e :: e in t.audio ==> e in s.audio)
      && (hit.None? ==> Absent(Selected(t, step.speech), step.key))
  {
    hide Flying, Counted, Limited, Told, CachesTrue, Cache.AfterGet, Cache.OneEach, Cache.Bounded, Absent;
    Cache.GetKeeps(s.audio, step.key, step.now, AUDIO_ENTRIES, AUDIO_BYTES);
    Cache.GetKeeps(s.text, step.key, step.now, TEXT_ENTRIES, TEXT_BYTES);
    if Looked(s, step).1.None? {
      MissIsAbsent(Selected(s, step.speech), step.key, step.now);
    }
  }

  lemma JoinedIsQuiet(s: State, t: State, caller: Id, f: Id)
    requires f in t.flights && Quiet(s, t)
    ensures Quiet(s, Joined(t, caller, f))
  {
    hide Absent;
  }

  lemma StartedIsQuiet(s: State, t: State, step: Step, budget: Budget.State)
    requires step.Enter? && step.serial !in s.flights && Absent(Selected(t, step.speech), step.key)
    requires t == s.(text := t.text, audio := t.audio)
    requires (forall e :: e in t.text ==> e in s.text) && (forall e :: e in t.audio ==> e in s.audio)
    ensures
      var u := WithFlight(t.(budget := budget), step.key, step.speech, step.serial);
      Quiet(s, Joined(u, step.caller, step.serial))
  {
    hide Absent;
  }

  /** The five ways a call can go. */
  lemma EnterForms(s: State, step: Step)
    requires Sound(s) && step.Enter?
    ensures
      var t, u := Looked(s, step).0, After(s, step);
      var (budget, allowed) := Budget.Step(s.budget, (step.owner, step.kind), step.now);
      && t == s.(text := t.text, audio := t.audio)
      && (|| u == s
          || u == t
          || (step.key in t.table && t.table[step.key] in t.flights && u == Joined(t, step.caller, t.table[step.key]))
          || (!s.closed && !allowed && u == t.(budget := budget))
          || (!s.closed && allowed && step.serial !in s.flights
              && u == Joined(WithFlight(t.(budget := budget), step.key, step.speech, step.serial), step.caller,
                   step.serial)))
  {
    hide Sound, Looked, Budget.Step, Joined;
    TableOf(s, step.key);
    LookedFrame(s, step);
  }

  lemma EnterIsQuiet(s: State, step: Step)
    requires Sound(s) && step.Enter?
    ensures Quiet(s, After(s, step))
  {
    hide Sound, Looked, Budget.Step, Absent, Joined, Quiet;
    TableOf(s, step.key);
    var (t, hit) := Looked(s, step);
    LookedShrinks(s, step);
    SameIsQuiet(s, s, s.budget);
    SameIsQuiet(s, t, t.budget);
    var (budget, allowed) := Budget.Step(t.budget, (step.owner, step.kind), step.now);
    SameIsQuiet(s, t, budget);
    if step.key in s.table {
      JoinedIsQuiet(s, t, step.caller, s.table[step.key]);
    } else if hit.None? && step.serial !in s.flights {
      StartedIsQuiet(s, t, step, budget);
    }
  }

  lemma SameIsQuiet(s: State, t: State, budget: Budget.State)
    requires t.flights == s.flights
    requires (forall e :: e in t.text ==> e in s.text) && (forall e :: e in t.audio ==> e in s.audio)
    ensures Quiet(s, t.(budget := budget))
  {
  }

  lemma OneIsQuiet(s: State, t: State, f: Id)
    requires f in s.flights && f in t.flights && GoesOn(s.flights[f], t.flights[f])
    requires t.flights == s.flights[f := t.flights[f]] && t.text == s.text && t.audio == s.audio
    ensures Quiet(s, t)
  {
    hide Absent;
  }

  lemma CancelIsQuiet(s: State, t: State)
    requires OnlyCancelled(s.flights, t.flights) && t.text == s.text && t.audio == s.audio
    requires forall f :: f in s.flights && s.flights[f].cancelled ==> t.flights[f].cancelled
    ensures Quiet(s, t)
  {
    hide Absent;
  }

  lemma GoIsQuiet(s: State, step: Step)
    requires Sound(s) && (step.Receive? || step.Leave?)
    ensures Quiet(s, After(s, step))
  {
    hide Sound, Quiet, Entered, Completed, AllCancelled, Emptied;
    SameIsQuiet(s, s, s.budget);
    if step.caller in s.callers {
      CountsOf(s);
      CallerCounted(s, step.caller);
      OneIsQuiet(s, After(s, step), s.callers[step.caller]);
    }
  }

  lemma StageIsQuiet(s: State, step: Step)
    requires Sound(s)
    requires step.Acquire? || step.GiveUp? || step.Begin? || step.Return? || step.Free? || step.Check? || step.Expire?
    ensures Quiet(s, After(s, step))
  {
    hide Sound, Quiet, After;
    SameIsQuiet(s, s, s.budget);
    StageFrame(s, step);
    if After(s, step) != s {
      OneIsQuiet(s, After(s, step), step.f);
    }
  }

  lemma StageFrame(s: State, step: Step)
    requires Sound(s)
    requires step.Acquire? || step.GiveUp? || step.Begin? || step.Return? || step.Free? || step.Check? || step.Expire?
    ensures
      var t := After(s, step);
      t != s ==>
        && step.f in s.flights && step.f in t.flights && GoesOn(s.flights[step.f], t.flights[step.f])
        && t.flights == s.flights[step.f := t.flights[step.f]] && t.text == s.text && t.audio == s.audio
  {
    hide Sound, Entered, Left, Completed, AllCancelled, Emptied;
  }

  lemma StepIsQuiet(s: State, step: Step)
    requires Sound(s) && !step.Complete?
    ensures Quiet(s, After(s, step))
  {
    hide Sound, Quiet, Left, Entered, Staged;
    SameIsQuiet(s, s, s.budget);
    match step {
      case Enter(_, _, _, _, _, _, _) => EnterIsQuiet(s, step);
      case Receive(_) => GoIsQuiet(s, step);
      case Leave(_) => GoIsQuiet(s, step);
      case Close =>
        AllAreCancelled(s);
        CancelIsQuiet(s, After(s, step));
      case Clear => SameIsQuiet(s, s.(text := [], audio := []), s.budget.(windows := map[]));
      case _ => StageIsQuiet(s, step);
    }
  }

  lemma CountsOf(s: State)
    requires Sound(s)
    ensures Counted(s)
  {
    hide Flying, Counted, Limited, Told, CachesBounded, CachesTrue;
  }

  lemma QuietKeeps(s: State, t: State)
    requires Quiet(s, t) && Unshadowed(s) && LastWaiterCancels(s)
    ensures Unshadowed(t) && LastWaiterCancels(t)
  {
    forall f | f in t.flights && !t.flights[f].stage.Finished?
      ensures Absent(Selected(t, t.flights[f].speech), t.flights[f].key)
    {
      if f in s.flights {
        assert GoesOn(s.flights[f], t.flights[f]);
      }
    }
    forall f | f in t.flights && t.flights[f].waiters == 0
      ensures t.flights[f].cancelled
    {
      if f in s.flights {
        assert GoesOn(s.flights[f], t.flights[f]);
      }
    }
  }

  // ---------- Completions ----------

  datatype Stored = Stored(data: Cache.Bytes, now: int)

  /** The data a completion wants in the cache: a success somebody still waits for. */
  ghost function Wanted(s: State, step: Step, speech: bool, key: Id): Option<Stored> {
    if !step.Complete? || step.f !in s.flights then None
    else
      var flight := s.flights[step.f];
      if flight.stage.Checked? && flight.stage.outcome.Data? && flight.waiters > 0 && flight.speech == speech
        && flight.key == key
      then Some(Stored(flight.stage.outcome.bytes, step.now)) else None
  }

  lemma OneFlightAKey(s: State, f: Id, g: Id)
    requires Sound(s) && SameWork(s, f, g)
    ensures f == g
  {
    hide Counted, Limited, Told, CachesBounded, CachesTrue;
  }

  lemma CompleteUnshadowed(s: State, f: Id, now: int)
    requires Sound(s) && f in s.flights && s.flights[f].stage.Checked? && Unshadowed(s)
    ensures Unshadowed(Completed(s, f, now))
  {
    hide Sound, Completed, Kept, Cache.AfterPut;
    var t, flight := Completed(s, f, now), s.flights[f];
    CompletedFrame(s, f, now);
    forall g | g in t.flights && !t.flights[g].stage.Finished?
      ensures Absent(Selected(t, t.flights[g].speech), t.flights[g].key)
    {
      assert g != f && t.flights[g] == s.flights[g];
      if s.flights[g].key == flight.key {
        OneFlightAKey(s, f, g);
      }
      forall e | e in Selected(t, s.flights[g].speech)
        ensures e.key != s.flights[g].key
      {
        StoredFrom(s, f, now, s.flights[g].speech, e);
      }
    }
  }

  /** What a cache holds after a completion: what it held, or the flight's data. */
  lemma StoredFrom(s: State, f: Id, now: int, speech: bool, e: Cache.Entry)
    requires Sound(s) && f in s.flights && s.flights[f].stage.Checked?
    requires e in Selected(Completed(s, f, now), speech)
    ensures e in Selected(s, speech)
      || (e.key == s.flights[f].key
        && Wanted(s, Complete(f, now), speech, e.key) == Some(Stored(e.data, e.expires - Cache.DAY)))
  {
    hide Sound, Completed, Cache.AfterPut;
    CompletedFrame(s, f, now);
    var flight := s.flights[f];
    if flight.stage.outcome.Data? && flight.waiters > 0 {
      var data := flight.stage.outcome.bytes;
      if flight.speech {
        PutAdds(s.audio, flight.key, data, now, AUDIO_ENTRIES, AUDIO_BYTES);
      } else {
        PutAdds(s.text, flight.key, data, now, TEXT_ENTRIES, TEXT_BYTES);
      }
    }
  }

  lemma PutAdds(entries: seq<Cache.Entry>, key: Id, data: Cache.Bytes, now: int, n: nat, max: nat)
    requires n > 0
    ensures forall e :: e in Cache.AfterPut(entries, key, data, now, n, max) ==>
      e in entries || e == Cache.Entry(key, data, now + Cache.DAY)
  {
    forall e | e in Cache.AfterPut(entries, key, data, now, n, max)
      ensures e in entries || e == Cache.Entry(key, data, now + Cache.DAY)
    {
      if |data| <= max {
        var kept := Cache.Trimmed(Cache.Without(entries, key), n, max - |data|);
        if e in kept {
          assert e in Cache.Without(entries, key);
        }
      }
    }
  }

  lemma CompleteCancels(s: State, f: Id, now: int)
    requires f in s.flights && s.flights[f].stage.Checked? && LastWaiterCancels(s)
    ensures LastWaiterCancels(Completed(s, f, now))
  {
    hide Completed;
    CompletedFrame(s, f, now);
  }

  ghost predicate Orderly(s: State) {
    Sound(s) && Unshadowed(s) && LastWaiterCancels(s)
  }

  /** The invariant with its two further parts holds of every interleaving. */
  lemma StepKeepsOrderly(s: State, step: Step)
    requires Orderly(s)
    ensures Orderly(After(s, step))
  {
    hide Sound, Unshadowed, LastWaiterCancels, Quiet, Entered, Left, Completed, AllCancelled;
    StepKeepsSound(s, step);
    if step.Complete? {
      if step.f in s.flights && s.flights[step.f].stage.Checked? {
        CompleteUnshadowed(s, step.f, step.now);
        CompleteCancels(s, step.f, step.now);
      }
    } else {
      StepIsQuiet(s, step);
      QuietKeeps(s, After(s, step));
    }
  }

  // ---------- Moments of a run ----------

  /** The state before step k of a run. */
  ghost function At(steps: seq<Step>, k: nat): State
    requires k <= |steps|
  {
    StartIsSound();
    Run(Start(), steps[..k])
  }

  lemma {:induction false} RunSnoc(s: State, steps: seq<Step>, step: Step)
    requires Sound(s)
    ensures Sound(Run(s, steps))
    ensures Run(s, steps + [step]) == After(Run(s, steps), step)
    decreases |steps|
  {
    hide Sound, After;
    RunIsSound(s, steps);
    if steps == [] {
      StepKeepsSound(s, step);
      assert (steps + [step])[1..] == [];
    } else {
      StepKeepsSound(s, steps[0]);
      RunSnoc(After(s, steps[0]), steps[1..], step);
      assert (steps + [step])[1..] == steps[1..] + [step];
    }
  }

  lemma AtNext(steps: seq<Step>, k: nat)
    requires k < |steps|
    ensures Sound(At(steps, k)) && At(steps, k + 1) == After(At(steps, k), steps[k])
  {
    hide Sound, After, Run, Start;
    StartIsSound();
    RunSnoc(Start(), steps[..k], steps[k]);
    assert steps[..k + 1] == steps[..k] + [steps[k]];
  }

  lemma {:induction false} AlwaysOrderly(steps: seq<Step>, k: nat)
    requires k <= |steps|
    ensures Orderly(At(steps, k))
  {
    hide Orderly, After;
    if k == 0 {
      StartIsOrderly(steps);
    } else {
      AlwaysOrderly(steps, k - 1);
      AtNext(steps, k - 1);
      OrderlyIsSound(At(steps, k - 1));
      StepKeepsOrderly(At(steps, k - 1), steps[k - 1]);
    }
  }

  lemma StartIsOrderly(steps: seq<Step>)
    ensures At(steps, 0) == Start() && Orderly(Start())
  {
    StartIsSound();
  }

  lemma OrderlyIsSound(s: State)
    requires Orderly(s)
    ensures Sound(s) && Unshadowed(s) && LastWaiterCancels(s)
  {
  }

  // ---------- What a hit is ----------

  /** The latest completion before step k that wanted its data in the cache for the key. */
  ghost function LatestWanted(steps: seq<Step>, k: nat, speech: bool, key: Id): Option<Stored>
    requires k <= |steps|
  {
    if k == 0 then None
    else
      var w := Wanted(At(steps, k - 1), steps[k - 1], speech, key);
      if w.Some? then w else LatestWanted(steps, k - 1, speech, key)
  }

  ghost predicate Latest(steps: seq<Step>, k: nat, speech: bool)
    requires k <= |steps|
  {
    forall e :: e in Selected(At(steps, k), speech) ==>
      LatestWanted(steps, k, speech, e.key) == Some(Stored(e.data, e.expires - Cache.DAY))
  }

  /** An entry that is in the cache after a step was there before, and no completion of
      that step wanted other data for its key; or the step has just put it there. */
  lemma EntryFrom(s: State, step: Step, speech: bool, e: Cache.Entry)
    requires Orderly(s) && e in Selected(After(s, step), speech)
    ensures Wanted(s, step, speech, e.key) == Some(Stored(e.data, e.expires - Cache.DAY))
      || (e in Selected(s, speech) && Wanted(s, step, speech, e.key).None?)
  {
    hide Sound, Unshadowed, LastWaiterCancels, Entered, Left, Completed, AllCancelled, GoesOn;
    if !step.Complete? {
      StepIsQuiet(s, step);
    } else if step.f in s.flights && s.flights[step.f].stage.Checked? {
      StoredFrom(s, step.f, step.now, speech, e);
      ShadowFree(s, step.f);
    }
  }

  lemma ShadowFree(s: State, f: Id)
    requires Unshadowed(s) && f in s.flights && !s.flights[f].stage.Finished?
    ensures forall e :: e in Selected(s, s.flights[f].speech) ==> e.key != s.flights[f].key
  {
  }

  lemma {:induction false} AlwaysLatest(steps: seq<Step>, k: nat, speech: bool)
    requires k <= |steps|
    ensures Latest(steps, k, speech)
  {
    hide Orderly, After, Wanted, At;
    AlwaysOrderly(steps, k);
    if k == 0 {
      StartIsOrderly(steps);
    } else {
      AlwaysLatest(steps, k - 1, speech);
      AtNext(steps, k - 1);
      AlwaysOrderly(steps, k - 1);
      forall e | e in Selected(At(steps, k), speech)
        ensures LatestWanted(steps, k, speech, e.key) == Some(Stored(e.data, e.expires - Cache.DAY))
      {
        EntryFrom(At(steps, k - 1), steps[k - 1], speech, e);
      }
    }
  }

  ghost function ReplyAt(steps: seq<Step>, k: nat): Reply
    requires k < |steps| && steps[k].Enter?
  {
    AlwaysOrderly(steps, k);
    OrderlyIsSound(At(steps, k));
    ReplyTo(At(steps, k), steps[k])
  }

  /** At any moment of any run a hit is the data of the latest wanted completion for that
      key in that cache, at most a day old; data too large for the cache is no exception,
      for its key had no entry. */
  lemma HitIsLatestWanted(steps: seq<Step>, k: nat)
    requires k < |steps| && steps[k].Enter? && ReplyAt(steps, k).Hit?
    ensures
      var last := LatestWanted(steps, k, steps[k].speech, steps[k].key);
      last.Some? && last.value.data == ReplyAt(steps, k).bytes && steps[k].now <= last.value.now + Cache.DAY
  {
    hide Orderly, After, At, LatestWanted, ReplyTo;
    AlwaysOrderly(steps, k);
    OrderlyIsSound(At(steps, k));
    AlwaysLatest(steps, k, steps[k].speech);
    HitIsEntry(At(steps, k), steps[k]);
  }

  lemma HitIsEntry(s: State, step: Step)
    requires Sound(s) && step.Enter? && ReplyTo(s, step).Hit?
    ensures exists e ::
      e in Selected(s, step.speech) && e.key == step.key && e.data == ReplyTo(s, step).bytes && step.now <= e.expires
  {
    hide Sound, Budget.Step, Joined;
    TableOf(s, step.key);
    var e := Cache.EntryFor(Selected(s, step.speech), step.key);
    assert e.Some?;
  }

  // ---------- Abandoned flights ----------

  /** The flight has yet to look at its context for the last time. */
  predicate BeforeLook(stage: Stage) {
    stage.Queued? || stage.Slotted? || stage.Running? || stage.Returned? || stage.Drained?
  }

  /** Whatever the provider still answers, this flight ends in a failure. */
  ghost predicate Doomed(s: State, f: Id) {
    && f in s.flights
    && var flight := s.flights[f];
    if BeforeLook(flight.stage) then flight.cancelled else flight.stage.outcome.Failed?
  }

  lemma EnterKeepsFlights(s: State, step: Step, f: Id)
    requires Sound(s) && step.Enter? && f in s.flights
    ensures f in After(s, step).flights
    ensures After(s, step).flights[f].stage == s.flights[f].stage
      && After(s, step).flights[f].cancelled == s.flights[f].cancelled
  {
    hide Sound, Looked, Budget.Step, After;
    EnterForms(s, step);
  }

  lemma StageKeepsDoomed(s: State, step: Step, f: Id)
    requires Sound(s) && Doomed(s, f)
    requires step.Acquire? || step.GiveUp? || step.Begin? || step.Return? || step.Free? || step.Check? || step.Expire?
    ensures Doomed(After(s, step), f)
  {
    hide Sound, Entered, Left, Completed, AllCancelled, Emptied;
  }

  lemma StepKeepsDoomed(s: State, step: Step, f: Id)
    requires Sound(s) && Doomed(s, f)
    ensures Doomed(After(s, step), f)
  {
    hide Sound, Entered, Completed, Staged;
    match step {
      case Enter(_, _, _, _, _, _, _) => EnterKeepsFlights(s, step, f);
      case Complete(g, now) =>
        if g in s.flights && s.flights[g].stage.Checked? {
          CompletedFrame(s, g, now);
        }
      case Receive(caller) =>
        if caller in s.callers {
          CountsOf(s);
          CallerCounted(s, caller);
        }
      case Leave(caller) =>
        if caller in s.callers {
          CountsOf(s);
          CallerCounted(s, caller);
        }
      case Close =>
      case Clear =>
      case _ => StageKeepsDoomed(s, step, f);
    }
  }

  lemma {:induction false} StaysDoomed(steps: seq<Step>, i: nat, j: nat, f: Id)
    requires i <= j <= |steps| && Doomed(At(steps, i), f)
    ensures Doomed(At(steps, j), f)
    decreases j
  {
    hide Doomed, At, After;
    if i < j {
      StaysDoomed(steps, i, j - 1, f);
      AtNext(steps, j - 1);
      StepKeepsDoomed(At(steps, j - 1), steps[j - 1], f);
    }
  }

  /** A flight whose last waiter has left before it looked at its context never wants
      anything in a cache again, and nobody is ever given data by it: also when a later
      caller joins it while its provider call goes on. */
  lemma AbandonedNeverLands(steps: seq<Step>, i: nat, j: nat, f: Id, speech: bool, key: Id, now: int)
    requires i <= j <= |steps| && f in At(steps, i).flights
    requires At(steps, i).flights[f].waiters == 0 && BeforeLook(At(steps, i).flights[f].stage)
    ensures f in At(steps, j).flights
    ensures Wanted(At(steps, j), Complete(f, now), speech, key) == None
    ensures forall c :: c in At(steps, j).got && At(steps, j).got[c].0 == f ==> At(steps, j).got[c].1.Failed?
  {
    hide At, Flying, Counted, Limited, CachesBounded, CachesTrue, Unshadowed;
    AlwaysOrderly(steps, i);
    AlwaysOrderly(steps, j);
    assert Doomed(At(steps, i), f);
    StaysDoomed(steps, i, j, f);
  }

  // ---------- Budgets ----------

  /** Calls come in the order of their times. */
  predicate InOrder(steps: seq<Step>) {
    forall i, j :: 0 <= i <= j < |steps| && steps[i].Enter? && steps[j].Enter? ==> steps[i].now <= steps[j].now
  }

  /** Windows are never over their caps, and one admission was logged for each flight. */
  ghost predicate WithinCaps(s: State) {
    && |s.budget.windows| <= Budget.OWNERS
    && |s.budget.log| == |s.flights|
    && (forall key: Budget.Key :: Budget.Windowed(Budget.Minutes(s.budget.log, key), Budget.MINUTE, Budget.Cap(key.1)))
    && Budget.Windowed(Budget.Hours(s.budget.log), Budget.HOUR, Budget.HOURLY)
  }

  const UNUSED := Budget.State(map[], None, [])

  /** The budgets are in step with their log: unused, or used until a time at which no
      call has come later. A closed gateway asks them no more. */
  ghost predicate InStep(s: State, steps: seq<Step>, k: nat, t: int) {
    s.closed || s.budget == UNUSED
    || (Budget.Sound(s.budget, t) && forall i :: k <= i < |steps| && steps[i].Enter? ==> t <= steps[i].now)
  }

  lemma SoundWithinCaps(b: Budget.State, t: int)
    requires Budget.Sound(b, t)
    ensures |b.windows| <= Budget.OWNERS
    ensures forall key: Budget.Key :: Budget.Windowed(Budget.Minutes(b.log, key), Budget.MINUTE, Budget.Cap(key.1))
    ensures Budget.Windowed(Budget.Hours(b.log), Budget.HOUR, Budget.HOURLY)
  {
    hide Budget.Windowed, Budget.Current, Budget.Past;
    forall key: Budget.Key
      ensures Budget.Windowed(Budget.Minutes(b.log, key), Budget.MINUTE, Budget.Cap(key.1))
    {
      assert Budget.KeySound(b.windows, b.log, key, t);
    }
  }

  /** A call asks the budgets at most once, and starts a flight exactly when they admit it. */
  lemma EnterAsks(s: State, step: Step)
    requires Sound(s) && step.Enter?
    ensures
      var t, (asked, allowed) := After(s, step), Budget.Step(s.budget, (step.owner, step.kind), step.now);
      && t.closed == s.closed && (s.closed ==> t.budget == s.budget)
      && if t.flights.Keys == s.flights.Keys then t.budget == s.budget || (t.budget == asked && !allowed)
         else
           !s.closed && t.budget == asked && allowed && step.serial !in s.flights
           && t.flights.Keys == s.flights.Keys + {step.serial}
  {
    hide Sound, Looked, Budget.Step, After;
    EnterForms(s, step);
  }

  lemma AdmissionLogged(b: Budget.State, key: Budget.Key, now: int)
    ensures |Budget.Step(b, key, now).0.log| == |b.log| + (if Budget.Step(b, key, now).1 then 1 else 0)
  {
  }

  /** The rest leaves log and windows alone, but for the end of Close. */
  lemma OthersDoNotAsk(s: State, step: Step)
    requires Sound(s) && !step.Enter?
    ensures
      var t := After(s, step);
      && t.flights.Keys == s.flights.Keys && (s.closed ==> t.closed)
      && (t.budget == s.budget || (s.closed && t.budget == s.budget.(windows := map[])))
  {
    hide Sound, Completed, Entered;
    match step {
      case Complete(f, now) =>
        if f in s.flights && s.flights[f].stage.Checked? {
          CompletedFrame(s, f, now);
          CompletedBudget(s, f, now);
        }
      case Receive(caller) => QuietKeys(s, step);
      case Leave(caller) => QuietKeys(s, step);
      case _ =>
    }
  }

  lemma CompletedBudget(s: State, f: Id, now: int)
    requires f in s.flights && s.flights[f].stage.Checked?
    ensures Completed(s, f, now).budget == s.budget && Completed(s, f, now).closed == s.closed
  {
    hide Cache.AfterPut;
  }

  lemma QuietKeys(s: State, step: Step)
    requires Sound(s) && (step.Receive? || step.Leave?)
    ensures After(s, step).flights.Keys == s.flights.Keys
    ensures After(s, step).budget == s.budget && After(s, step).closed == s.closed
  {
    hide Sound, Completed, Entered;
    if step.caller in s.callers {
      CountsOf(s);
      CallerCounted(s, step.caller);
    }
  }

  lemma {:induction false} AlwaysWithinCaps(steps: seq<Step>, k: nat) returns (t: int)
    requires k <= |steps| && InOrder(steps)
    ensures WithinCaps(At(steps, k)) && InStep(At(steps, k), steps, k, t)
  {
    hide Orderly, At, After, Budget.Step, Budget.Sound, Budget.Windowed;
    if k == 0 {
      StartIsOrderly(steps);
      Budget.StartIsSound(0);
      SoundWithinCaps(UNUSED, 0);
      t := 0;
    } else {
      var t0 := AlwaysWithinCaps(steps, k - 1);
      AtNext(steps, k - 1);
      var s, step := At(steps, k - 1), steps[k - 1];
      if step.Enter? {
        t := EnterWithinCaps(s, steps, k - 1, t0);
      } else {
        OthersDoNotAsk(s, step);
        SameSize(s.flights, At(steps, k).flights);
        t := t0;
      }
    }
  }

  lemma SameSize(a: map<Id, Flight>, b: map<Id, Flight>)
    requires a.Keys == b.Keys
    ensures |a| == |b|
  {
    assert |a.Keys| == |a| && |b.Keys| == |b|;
  }

  lemma OneMoreFlight(a: map<Id, Flight>, b: map<Id, Flight>, f: Id)
    requires f !in a && b.Keys == a.Keys + {f}
    ensures |b| == |a| + 1
  {
    assert |a.Keys| == |a| && |b.Keys| == |b|;
  }

  lemma EnterWithinCaps(s: State, steps: seq<Step>, i: nat, t0: int) returns (t: int)
    requires i < |steps| && steps[i].Enter? && InOrder(steps)
    requires Sound(s) && WithinCaps(s) && InStep(s, steps, i, t0)
    ensures WithinCaps(After(s, steps[i])) && InStep(After(s, steps[i]), steps, i + 1, t)
  {
    hide Sound, After, Budget.Step, Budget.Sound, Budget.Windowed;
    var step := steps[i];
    var key, u := (step.owner, step.kind), After(s, step);
    EnterAsks(s, step);
    AdmissionLogged(s.budget, key, step.now);
    t := t0;
    if u.flights.Keys == s.flights.Keys {
      SameSize(s.flights, u.flights);
    } else {
      OneMoreFlight(s.flights, u.flights, step.serial);
    }
    if u.budget != s.budget {
      if s.budget == UNUSED {
        Budget.StartIsSound(step.now);
        Budget.StepKeepsSound(s.budget, key, step.now, step.now);
      } else {
        Budget.StepKeepsSound(s.budget, key, t0, step.now);
      }
      SoundWithinCaps(u.budget, step.now);
      t := step.now;
    }
  }

  /** At any moment of any run: every flight ever started was admitted, in any minute an
      owner started at most twice the cap of a kind, in any hour everyone together at most
      200, and at most 2048 windows are kept. */
  lemma FlightsAreBudgeted(steps: seq<Step>, k: nat, key: Budget.Key, from: int)
    requires k <= |steps| && InOrder(steps)
    ensures
      var s := At(steps, k);
      && |s.flights| == |s.budget.log| && |s.budget.windows| <= Budget.OWNERS
      && Budget.CountIn(Budget.Minutes(s.budget.log, key), from, from + Budget.MINUTE) <= 2 * Budget.Cap(key.1)
      && Budget.CountIn(Budget.Hours(s.budget.log), from, from + Budget.HOUR) <= 200
  {
    hide At, InStep, Budget.Windowed;
    var _ := AlwaysWithinCaps(steps, k);
    var b := At(steps, k).budget;
    Budget.TwiceTheCap(Budget.Minutes(b.log, key), Budget.MINUTE, Budget.Cap(key.1), from);
    Budget.TwiceTheCap(Budget.Hours(b.log), Budget.HOUR, Budget.HOURLY, from);
  }
}
