/** What callers of the gateway are told and given: who waits for which flight, who is turned
    away and why, whose outcome a caller receives, and that nobody waits for nothing. */
module GatewayPromises {
  import opened Domain
  import Budget
  import Cache
  import opened Gateway
  import opened GatewaySteps
  import opened GatewayRuns

  // ---------- What a call is told ----------

  /** The selected cache holds data for the key that has not expired. */
  ghost predicate Cached(s: State, step: Step)
    requires step.Enter?
  {
    exists e :: e in Selected(s, step.speech) && e.key == step.key && step.now <= e.expires
  }

  /** No room for the caller: 32 wait, or 16 on the flight for the key, or eight flights are
      under way and none of them is for the key. */
  predicate Crowded(s: State, key: Id) {
    || s.waiting >= 32
    || (key in s.table && s.table[key] in s.flights && s.flights[s.table[key]].waiters >= 16)
    || (key !in s.table && |s.table| >= 8)
  }

  function Admits(s: State, step: Step): bool
    requires step.Enter?
  {
    Budget.Step(s.budget, (step.owner, step.kind), step.now).1
  }

  ghost predicate CallTold(s: State, step: Step, reply: Reply)
    requires step.Enter?
  {
    var free := !s.closed && !Cached(s, step);
    && (reply == Refused(Unavailable) <==> s.closed)
    && (reply.Hit? <==> !s.closed && Cached(s, step))
    && (reply.Hit? ==> exists e ::
          e in Selected(s, step.speech) && e.key == step.key && step.now <= e.expires && e.data == reply.bytes)
    && (reply == Refused(Busy) <==> free && Crowded(s, step.key))
    && (reply == Refused(RateLimited) <==>
          free && !Crowded(s, step.key) && step.key !in s.table && !Admits(s, step))
    && (reply.Waits? <==> free && !Crowded(s, step.key) && (step.key in s.table || Admits(s, step)))
    && (reply.Waits? ==> reply.f == if step.key in s.table then s.table[step.key] else step.serial)
  }

  lemma HitExactly(s: State, step: Step)
    requires Sound(s) && step.Enter?
    ensures Looked(s, step).1.Some? <==> Cached(s, step)
    ensures Looked(s, step).1.Some? ==> exists e ::
      e in Selected(s, step.speech) && e.key == step.key && step.now <= e.expires
        && e.data == Looked(s, step).1.value
  {
    hide Flying, Counted, Limited, Told, CachesTrue, Cache.Bounded, Cache.AfterGet;
    Cache.GetHits(Selected(s, step.speech), step.key, step.now);
  }

  /** What a call is told, in each of the six cases there are. A call for a key whose flight is
      under way is told to wait for that flight, unless 32 wait already or 16 wait for it. */
  lemma CallIsTold(s: State, step: Step)
    requires Sound(s) && step.Enter?
    ensures CallTold(s, step, ReplyTo(s, step))
  {
    hide Sound, Looked, Budget.Step, Joined, Cached;
    TableOf(s, step.key);
    LookedFrame(s, step);
    HitExactly(s, step);
  }

  /** The caller has joined flight f, which counts it; nothing else of the flights changed. */
  ghost predicate Joins(s: State, t: State, caller: Id, f: Id) {
    && f in s.flights && t.flights == s.flights[f := s.flights[f].(waiters := s.flights[f].waiters + 1)]
    && t.callers == s.callers[caller := f] && t.waiting == s.waiting + 1
    && t.table == s.table && t.budget == s.budget
  }

  /** A new flight for the key with this one caller, paid for by the owner's budget. */
  ghost predicate Starts(s: State, t: State, step: Step)
    requires step.Enter?
  {
    && t.flights == s.flights[step.serial := Flight(step.key, step.speech, 1, false, Queued)]
    && t.callers == s.callers[step.caller := step.serial] && t.waiting == s.waiting + 1
    && t.table == s.table[step.key := step.serial]
    && t.budget == Budget.Step(s.budget, (step.owner, step.kind), step.now).0
  }

  /** No flight, caller or key changed, and the budgets only when they were asked. */
  ghost predicate TurnsAway(s: State, t: State, step: Step, asked: bool)
    requires step.Enter?
  {
    && t.flights == s.flights && t.callers == s.callers && t.waiting == s.waiting && t.table == s.table
    && t.budget == if asked then Budget.Step(s.budget, (step.owner, step.kind), step.now).0 else s.budget
  }

  /** A caller that has not called before, with a new serial number. */
  predicate New(s: State, step: Step)
    requires step.Enter?
  {
    step.caller !in s.callers && step.caller !in s.got && step.serial !in s.flights
  }

  /** The same but for the caches. */
  predicate Aside(s: State, t: State) {
    t == s.(text := t.text, audio := t.audio)
  }

  ghost predicate SameElsewhere(s: State, t: State) {
    t.got == s.got && t.closed == s.closed && t.slots == s.slots && t.active == s.active
  }

  lemma JoinEffect(s: State, t: State, caller: Id, f: Id)
    requires Aside(s, t) && f in s.flights
    ensures Joins(s, Joined(t, caller, f), caller, f) && SameElsewhere(s, Joined(t, caller, f))
  {
  }

  lemma StartEffect(s: State, t: State, step: Step)
    requires Aside(s, t) && step.Enter? && step.serial !in s.flights
    ensures
      var budget := Budget.Step(t.budget, (step.owner, step.kind), step.now).0;
      var u := t.(budget := budget, table := t.table[step.key := step.serial],
                  flights := t.flights[step.serial := Flight(step.key, step.speech, 0, false, Queued)]);
      Starts(s, Joined(u, step.caller, step.serial), step) && SameElsewhere(s, Joined(u, step.caller, step.serial))
  {
    hide Budget.Step;
  }

  /** The three ways in which a call goes on after its look at the cache. */
  lemma CallForms(s: State, step: Step)
    requires Sound(s) && step.Enter? && New(s, step)
    ensures
      var t, u, reply := Looked(s, step).0, After(s, step), ReplyTo(s, step);
      var (budget, admitted) := Budget.Step(t.budget, (step.owner, step.kind), step.now);
      && Aside(s, t)
      && if reply.Waits? && step.key in s.table then
           s.table[step.key] in s.flights && u == Joined(t, step.caller, s.table[step.key])
         else if reply.Waits? then
           u == Joined(t.(budget := budget, table := t.table[step.key := step.serial],
                          flights := t.flights[step.serial := Flight(step.key, step.speech, 0, false, Queued)]),
                       step.caller, step.serial)
         else
           && u in {s, t, t.(budget := budget)}
           && u.budget == if reply == Refused(RateLimited) then budget else s.budget
  {
    hide Sound, Looked, Budget.Step, Joined;
    TableOf(s, step.key);
    LookedFrame(s, step);
  }

  /** What a call does: whoever is told to wait is counted on that flight; a flight is started,
      and the budgets are charged, only for a key that has none under way. */
  lemma CallCounts(s: State, step: Step)
    requires Sound(s) && step.Enter? && New(s, step)
    ensures
      var t, reply := After(s, step), ReplyTo(s, step);
      && SameElsewhere(s, t)
      && if reply.Waits? && step.key in s.table then Joins(s, t, step.caller, s.table[step.key])
         else if reply.Waits? then Starts(s, t, step)
         else TurnsAway(s, t, step, reply == Refused(RateLimited))
  {
    hide Sound, Looked, Budget.Step, Joined, Joins, Starts, After, ReplyTo;
    CallForms(s, step);
    var t := Looked(s, step).0;
    if ReplyTo(s, step).Waits? {
      if step.key in s.table {
        JoinEffect(s, t, step.caller, s.table[step.key]);
      } else {
        StartEffect(s, t, step);
      }
    }
  }

  // ---------- Whose outcome a caller receives ----------

  /** The caller still waits for the flight, or was given its outcome. */
  ghost predicate Bound(s: State, caller: Id, f: Id) {
    || (caller in s.callers && caller !in s.got && s.callers[caller] == f)
    || (caller !in s.callers && caller in s.got && s.got[caller].0 == f)
  }

  lemma GoneKeepsBound(s: State, step: Step, caller: Id, f: Id)
    requires Sound(s) && Bound(s, caller, f) && (step.Receive? || step.Leave?) && step != Leave(caller)
    ensures Bound(After(s, step), caller, f)
  {
    hide Sound, Entered, Completed;
    CountsOf(s);
    if step.caller in s.callers {
      CallerCounted(s, step.caller);
    }
  }

  lemma StepKeepsBound(s: State, step: Step, caller: Id, f: Id)
    requires Sound(s) && Bound(s, caller, f) && step != Leave(caller)
    ensures Bound(After(s, step), caller, f)
  {
    hide Sound, Entered, Completed, Left;
    match step {
      case Enter(_, _, _, _, _, _, _) => EnterKeepsBound(s, step, caller, f);
      case Receive(_) => GoneKeepsBound(s, step, caller, f);
      case Leave(_) => GoneKeepsBound(s, step, caller, f);
      case Complete(g, now) =>
        if g in s.flights && s.flights[g].stage.Checked? {
          CompletedFrame(s, g, now);
        }
      case _ =>
    }
  }

  lemma EnterKeepsBound(s: State, step: Step, caller: Id, f: Id)
    requires Sound(s) && Bound(s, caller, f) && step.Enter?
    ensures Bound(After(s, step), caller, f)
  {
    hide Sound, Entered, Looked, Budget.Step;
    if New(s, step) {
      CallCounts(s, step);
    }
  }

  lemma {:induction false} StaysBound(steps: seq<Step>, i: nat, j: nat, caller: Id, f: Id)
    requires i <= j <= |steps| && Bound(At(steps, i), caller, f)
    requires forall k :: i <= k < j ==> steps[k] != Leave(caller)
    ensures Bound(At(steps, j), caller, f)
    decreases j
  {
    hide Bound, At, After;
    if i < j {
      StaysBound(steps, i, j - 1, caller, f);
      AtNext(steps, j - 1);
      StepKeepsBound(At(steps, j - 1), steps[j - 1], caller, f);
    }
  }

  /** Over runs: a caller who was told to wait for a flight, and does not give up, waits for
      that flight until it is given that flight's outcome, and never another's. In particular
      a caller who came while a flight for its key was under way shares its outcome. */
  lemma WaiterGetsFlightsOutcome(steps: seq<Step>, i: nat, j: nat)
    requires i < j <= |steps| && steps[i].Enter? && ReplyAt(steps, i).Waits? && New(At(steps, i), steps[i])
    requires forall k :: i < k < j ==> steps[k] != Leave(steps[i].caller)
    ensures
      var t, caller, f := At(steps, j), steps[i].caller, ReplyAt(steps, i).f;
      && (steps[i].key in At(steps, i).table ==> f == At(steps, i).table[steps[i].key])
      && (caller in t.callers ==> t.callers[caller] == f)
      && (caller !in t.callers ==>
            caller in t.got && f in t.flights && t.got[caller].0 == f
            && t.flights[f].stage == Finished(t.got[caller].1))
  {
    hide At, After, ReplyTo, Flying, Counted, Limited, CachesBounded, CachesTrue, Unshadowed, LastWaiterCancels, Told,
      Budget.Step;
    var step := steps[i];
    AlwaysOrderly(steps, i);
    AlwaysOrderly(steps, j);
    CallIsTold(At(steps, i), step);
    CallCounts(At(steps, i), step);
    AtNext(steps, i);
    assert Bound(At(steps, i + 1), step.caller, ReplyAt(steps, i).f);
    StaysBound(steps, i + 1, j, step.caller, ReplyAt(steps, i).f);
    if step.caller in At(steps, j).got {
      GivenIsFinished(At(steps, j), step.caller);
    }
  }

  lemma GivenIsFinished(s: State, caller: Id)
    requires Told(s) && caller in s.got
    ensures s.got[caller].0 in s.flights && s.flights[s.got[caller].0].stage == Finished(s.got[caller].1)
  {
  }

  // ---------- Where an outcome comes from ----------

  /** The provider call of the flight returned this outcome before step k. */
  ghost predicate Provided(steps: seq<Step>, k: nat, f: Id, o: Outcome)
    requires k <= |steps|
  {
    exists i :: 0 <= i < k && steps[i] == Return(f, o) && f in At(steps, i).flights
      && At(steps, i).flights[f].stage.Running?
  }

  /** What the flight carries is what its provider returned, unless it was cancelled. */
  ghost predicate Honest(steps: seq<Step>, k: nat, f: Id, flight: Flight)
    requires k <= |steps|
  {
    match flight.stage
    case Returned(o) => Provided(steps, k, f, o)
    case Drained(o) => Provided(steps, k, f, o) || (o == Failed(TimedOut) && flight.cancelled)
    case Checked(o) => Provided(steps, k, f, o) || (o == Failed(TimedOut) && flight.cancelled)
    case Finished(o) => Provided(steps, k, f, o) || (o == Failed(TimedOut) && flight.cancelled)
    case _ => true
  }

  /** One step of one flight, whatever the others do. */
  ghost predicate Progresses(s: State, step: Step, f: Id, a: Flight, b: Flight) {
    && (a.cancelled ==> b.cancelled)
    && match b.stage
       case Returned(o) => a.stage == b.stage || (a.stage.Running? && step == Return(f, o))
       case Drained(o) => a.stage == b.stage || a.stage == Returned(o) || (o == Failed(TimedOut) && a.cancelled)
       case Checked(o) => a.stage == b.stage || a.stage == Drained(o) || (o == Failed(TimedOut) && a.cancelled)
       case Finished(o) => a.stage == b.stage || a.stage == Checked(o)
       case _ => true
  }

  lemma StageProgresses(s: State, step: Step, f: Id)
    requires Sound(s) && f in s.flights
    requires step.Acquire? || step.GiveUp? || step.Begin? || step.Return? || step.Free? || step.Check? || step.Expire?
    ensures f in After(s, step).flights && Progresses(s, step, f, s.flights[f], After(s, step).flights[f])
  {
    hide Sound, Entered, Left, Completed, AllCancelled, Emptied;
  }

  lemma FlightProgresses(s: State, step: Step, f: Id)
    requires Sound(s) && f in s.flights
    ensures f in After(s, step).flights && Progresses(s, step, f, s.flights[f], After(s, step).flights[f])
  {
    hide Sound, Entered, Completed, Staged;
    match step {
      case Enter(_, _, _, _, _, _, _) => EnterKeepsFlights(s, step, f);
      case Complete(g, now) =>
        if g in s.flights && s.flights[g].stage.Checked? {
          CompletedFrame(s, g, now);
        }
      case Receive(caller) =>
        if caller in s.callers {
          CountsOf(s);
          CallerCounted(s, caller);
        }
      case Leave(caller) =>
        if caller in s.callers {
          CountsOf(s);
          CallerCounted(s, caller);
        }
      case Close =>
      case Clear =>
      case _ => StageProgresses(s, step, f);
    }
  }

  lemma ProvidedLater(steps: seq<Step>, k: nat, f: Id, o: Outcome)
    requires k < |steps| && Provided(steps, k, f, o)
    ensures Provided(steps, k + 1, f, o)
  {
    hide At;
  }

  lemma NewIsQueued(s: State, step: Step, f: Id)
    requires Sound(s) && f in After(s, step).flights && f !in s.flights
    ensures After(s, step).flights[f].stage.Queued?
  {
    hide Sound, Looked, Budget.Step, Completed, Left;
    match step {
      case Enter(_, _, _, _, _, _, _) => EnterForms(s, step);
      case Complete(g, now) =>
        if g in s.flights && s.flights[g].stage.Checked? {
          CompletedFrame(s, g, now);
        }
      case Receive(_) => QuietKeys(s, step);
      case Leave(_) => QuietKeys(s, step);
      case _ =>
    }
  }

  lemma {:induction false} AlwaysHonest(steps: seq<Step>, k: nat, f: Id)
    requires k <= |steps| && f in At(steps, k).flights
    ensures Honest(steps, k, f, At(steps, k).flights[f])
    decreases k
  {
    hide At, After, Sound, Provided;
    if k == 0 {
      StartIsOrderly(steps);
    } else {
      var s, step := At(steps, k - 1), steps[k - 1];
      AtNext(steps, k - 1);
      if f in s.flights {
        AlwaysHonest(steps, k - 1, f);
        FlightProgresses(s, step, f);
        HonestStep(steps, k - 1, f, s.flights[f], At(steps, k).flights[f]);
      } else {
        NewIsQueued(s, step, f);
      }
    }
  }

  lemma HonestStep(steps: seq<Step>, k: nat, f: Id, a: Flight, b: Flight)
    requires k < |steps| && f in At(steps, k).flights && a == At(steps, k).flights[f]
    requires Honest(steps, k, f, a) && Progresses(At(steps, k), steps[k], f, a, b)
    ensures Honest(steps, k + 1, f, b)
  {
    hide At, Provided;
    if b.stage.Returned? || b.stage.Drained? || b.stage.Checked? || b.stage.Finished? {
      var o := b.stage.outcome;
      if Provided(steps, k, f, o) {
        ProvidedLater(steps, k, f, o);
      } else if a.stage.Running? && steps[k] == Return(f, o) {
        JustProvided(steps, k, f, o);
      }
    }
  }

  lemma JustProvided(steps: seq<Step>, k: nat, f: Id, o: Outcome)
    requires k < |steps| && steps[k] == Return(f, o)
    requires f in At(steps, k).flights && At(steps, k).flights[f].stage.Running?
    ensures Provided(steps, k + 1, f, o)
  {
    hide At;
  }

  /** Over runs: what a caller was given is what the provider call of its flight returned, or
      a timeout of a flight that was cancelled; of a flight that never was cancelled it is
      always what the provider returned. */
  lemma OutcomeIsProviders(steps: seq<Step>, k: nat, caller: Id)
    requires k <= |steps| && caller in At(steps, k).got
    ensures
      var (f, o) := At(steps, k).got[caller];
      && f in At(steps, k).flights
      && (Provided(steps, k, f, o) || (o == Failed(TimedOut) && At(steps, k).flights[f].cancelled))
  {
    hide At, Flying, Counted, Limited, CachesBounded, CachesTrue, Unshadowed, LastWaiterCancels, Told, Provided;
    AlwaysOrderly(steps, k);
    GivenIsFinished(At(steps, k), caller);
    AlwaysHonest(steps, k, At(steps, k).got[caller].0);
  }

  // ---------- What a completion leaves for later calls ----------

  /** Data that somebody waits for and that fits the cache is there for the next call for the
      key, for a day. */
  lemma FreshDataIsServed(s: State, f: Id, now: int, step: Step)
    requires Sound(s) && f in s.flights && s.flights[f].stage.Checked? && s.flights[f].stage.outcome.Data?
    requires s.flights[f].waiters > 0 && !s.closed
    requires |s.flights[f].stage.outcome.bytes| <= (if s.flights[f].speech then 16777216 else 4194304)
    requires step.Enter? && step.key == s.flights[f].key && step.speech == s.flights[f].speech
    requires step.now <= now + Cache.DAY
    ensures Sound(After(s, Complete(f, now)))
    ensures ReplyTo(After(s, Complete(f, now)), step) == Hit(s.flights[f].stage.outcome.bytes)
  {
    hide Sound, Cache.AfterGet, Cache.AfterPut, Budget.Step, Joined;
    var flight := s.flights[f];
    StepKeepsSound(s, Complete(f, now));
    CompletedFrame(s, f, now);
    CompletedBudget(s, f, now);
    var t := After(s, Complete(f, now));
    TableOf(t, step.key);
    Cache.PutThenGet(Selected(s, flight.speech), flight.key, flight.stage.outcome.bytes, now,
      if flight.speech then AUDIO_ENTRIES else TEXT_ENTRIES, if flight.speech then AUDIO_BYTES else TEXT_BYTES,
      step.now);
  }

  /** And what is stored puts nothing else out as long as the cache has a place and the bytes
      for it: 128 places and 4 MiB for text, 32 and 16 MiB for speech. */
  lemma OthersStayCached(s: State, f: Id, now: int, e: Cache.Entry)
    requires Sound(s) && f in s.flights && s.flights[f].stage.Checked? && s.flights[f].stage.outcome.Data?
    requires
      var flight := s.flights[f];
      var entries := Selected(s, flight.speech);
      && e in entries && e.key != flight.key && |entries| < (if flight.speech then 32 else 128)
      && Cache.Size(entries) + |flight.stage.outcome.bytes| <= (if flight.speech then 16777216 else 4194304)
    ensures e in Selected(After(s, Complete(f, now)), s.flights[f].speech)
  {
    hide Flying, Counted, Limited, Told, CachesTrue, Cache.AfterPut, Cache.Bounded;
    var flight := s.flights[f];
    CompletedFrame(s, f, now);
    Cache.PutKeepsOthers(Selected(s, flight.speech), flight.key, flight.stage.outcome.bytes, now,
      if flight.speech then AUDIO_ENTRIES else TEXT_ENTRIES, if flight.speech then AUDIO_BYTES else TEXT_BYTES, e);
  }

  // ---------- Cancellation ----------

  /** Nobody waits for the flight after the step, it runs out of time, or the gateway closes. */
  ghost predicate CancelledBy(s: State, step: Step, t: State, f: Id) {
    step == Expire(f) || step.Close? || (f in t.flights && t.flights[f].waiters == 0)
  }

  lemma CancelsOnlyFor(s: State, step: Step, f: Id)
    requires Sound(s) && f in s.flights && !s.flights[f].cancelled
    ensures f in After(s, step).flights
    ensures After(s, step).flights[f].cancelled ==> CancelledBy(s, step, After(s, step), f)
  {
    hide Sound, Entered, Completed, Staged;
    match step {
      case Enter(_, _, _, _, _, _, _) => EnterKeepsFlights(s, step, f);
      case Complete(g, now) =>
        if g in s.flights && s.flights[g].stage.Checked? {
          CompletedFrame(s, g, now);
        }
      case Receive(caller) =>
        if caller in s.callers {
          CountsOf(s);
          CallerCounted(s, caller);
        }
      case Leave(caller) =>
        if caller in s.callers {
          CountsOf(s);
          CallerCounted(s, caller);
        }
      case Expire(_) =>
      case Close =>
      case Clear =>
      case _ => StageCancelsNothing(s, step, f);
    }
  }

  lemma StageCancelsNothing(s: State, step: Step, f: Id)
    requires Sound(s) && f in s.flights
    requires step.Acquire? || step.GiveUp? || step.Begin? || step.Return? || step.Free? || step.Check?
    ensures f in After(s, step).flights && After(s, step).flights[f].cancelled == s.flights[f].cancelled
  {
    hide Sound, Entered, Left, Completed, AllCancelled, Emptied;
  }

  lemma NewIsWanted(s: State, step: Step, f: Id)
    requires Sound(s) && f in After(s, step).flights && f !in s.flights
    ensures !After(s, step).flights[f].cancelled
  {
    hide Sound, Looked, Budget.Step, Completed, Left;
    match step {
      case Enter(_, _, _, _, _, _, _) => EnterForms(s, step);
      case Complete(g, now) =>
        if g in s.flights && s.flights[g].stage.Checked? {
          CompletedFrame(s, g, now);
        }
      case Receive(_) => QuietKeys(s, step);
      case Leave(_) => QuietKeys(s, step);
      case _ =>
    }
  }

  /** Over runs: a flight is cancelled only because at some moment nobody waited for it, it ran
      out of time, or the gateway was closed. One caller who leaves does not cancel the others'. */
  lemma {:induction false} CancelledHasCause(steps: seq<Step>, k: nat, f: Id)
    requires k <= |steps| && f in At(steps, k).flights && At(steps, k).flights[f].cancelled
    ensures exists i: nat :: i < k && CancelledBy(At(steps, i), steps[i], At(steps, i + 1), f)
    decreases k
  {
    hide At, After, Sound, CancelledBy;
    if k == 0 {
      StartIsOrderly(steps);
    } else {
      var s, step := At(steps, k - 1), steps[k - 1];
      AtNext(steps, k - 1);
      if f !in s.flights {
        NewIsWanted(s, step, f);
      } else if s.flights[f].cancelled {
        CancelledHasCause(steps, k - 1, f);
      } else {
        CancelsOnlyFor(s, step, f);
      }
    }
  }

  lemma CancelledIsDoomed(s: State, step: Step, f: Id)
    requires Sound(s) && f in s.flights && BeforeLook(s.flights[f].stage)
    requires step == Expire(f) || step == Close
    ensures Doomed(After(s, step), f)
  {
    hide Counted, Limited, Told, CachesBounded, CachesTrue;
  }

  /** Over runs: a flight that runs out of time, or is under way when the gateway closes, before
      it has looked at its context for the last time, gives nobody data, whatever its provider
      still answers. */
  lemma CancelledNeverDelivers(steps: seq<Step>, i: nat, j: nat, f: Id)
    requires i < j <= |steps| && (steps[i] == Expire(f) || steps[i] == Close)
    requires f in At(steps, i).flights && BeforeLook(At(steps, i).flights[f].stage)
    ensures forall c :: c in At(steps, j).got && At(steps, j).got[c].0 == f ==> At(steps, j).got[c].1.Failed?
  {
    hide At, After, Flying, Counted, Limited, CachesBounded, CachesTrue, Unshadowed, LastWaiterCancels;
    AlwaysOrderly(steps, i);
    AlwaysOrderly(steps, j);
    AtNext(steps, i);
    CancelledIsDoomed(At(steps, i), steps[i], f);
    StaysDoomed(steps, i + 1, j, f);
  }

  /** A caller who goes, served or not, is no longer counted; the flight is cancelled if and
      only if it was before or nobody is left. */
  lemma DepartureIsExact(s: State, step: Step)
    requires Sound(s) && step.Leave? && step.caller in s.callers
    ensures
      var t, f := After(s, step), s.callers[step.caller];
      && f in s.flights && s.flights[f].waiters > 0
      && t.callers == s.callers - {step.caller} && t.waiting == s.waiting - 1 && t.got == s.got
      && t.flights == s.flights[f := s.flights[f].(waiters := s.flights[f].waiters - 1,
           cancelled := s.flights[f].cancelled || s.flights[f].waiters == 1)]
  {
    hide Sound;
    CountsOf(s);
    CallerCounted(s, step.caller);
  }

  /** Closing cancels exactly the flights that are not finished and refuses every later call;
      when all flights are finished, caches and windows are emptied. */
  lemma ClosingIsExact(s: State)
    requires Sound(s)
    ensures
      var t := After(s, Close);
      && t.closed && t == s.(closed := true, flights := t.flights) && t.flights.Keys == s.flights.Keys
      && forall f :: f in s.flights ==>
           t.flights[f] == s.flights[f].(cancelled := s.flights[f].cancelled || !s.flights[f].stage.Finished?)
    ensures After(s, Clear) ==
      if s.closed && forall f :: f in s.flights ==> s.flights[f].stage.Finished?
      then s.(text := [], audio := [], budget := s.budget.(windows := map[])) else s
  {
    hide Counted, Limited, Told, CachesBounded, CachesTrue;
  }
}
