/** What the gateway can do by itself from any state: no caller is stuck. */
module GatewayProgress {
  import opened Domain
  import Budget
  import Cache
  import opened Gateway
  import opened GatewaySteps
  import opened GatewayRuns

  // ---------- One flight ----------

  /** A step of a flight on its own behalf, or a caller that takes its result. */
  predicate OwnStep(step: Step) {
    || step.Acquire? || step.Begin? || step.Return? || step.Free? || step.Check? || step.Complete? || step.Receive?
  }

  /** The next step of an unfinished flight whose provider call, if it comes to that, returns o. */
  function NextStep(f: Id, stage: Stage, o: Outcome): Step
    requires !stage.Finished?
  {
    match stage
    case Queued => Acquire(f)
    case Slotted => Begin(f)
    case Running => Return(f, o)
    case Returned(_) => Free(f)
    case Drained(_) => Check(f)
    case Checked(_) => Complete(f, 0)
  }

  function NextStage(flight: Flight, o: Outcome): Stage
    requires !flight.stage.Finished?
  {
    match flight.stage
    case Queued => Slotted
    case Slotted => Running
    case Running => Returned(o)
    case Returned(p) => Drained(p)
    case Drained(p) => Checked(if flight.cancelled then Failed(TimedOut) else p)
    case Checked(p) => Finished(p)
  }

  function Left(stage: Stage): nat {
    match stage
    case Queued => 6
    case Slotted => 5
    case Running => 4
    case Returned(_) => 3
    case Drained(_) => 2
    case Checked(_) => 1
    case Finished(_) => 0
  }

  /** The flight ends with o if its provider call returns o and it is not cancelled before. */
  function Ending(flight: Flight, o: Outcome): Outcome {
    match flight.stage
    case Queued => if flight.cancelled then Failed(TimedOut) else o
    case Slotted => if flight.cancelled then Failed(TimedOut) else o
    case Running => if flight.cancelled then Failed(TimedOut) else o
    case Returned(p) => if flight.cancelled then Failed(TimedOut) else p
    case Drained(p) => if flight.cancelled then Failed(TimedOut) else p
    case Checked(p) => p
    case Finished(p) => p
  }

  /** Only flight f changed, and of it only the stage. */
  ghost predicate OnlyStage(s: State, t: State, f: Id) {
    && f in s.flights && f in t.flights
    && t.flights == s.flights[f := s.flights[f].(stage := t.flights[f].stage)]
    && t.callers == s.callers && t.got == s.got && t.closed == s.closed
  }

  lemma CountsHolders(s: State, f: Id)
    requires Sound(s) && f in s.flights
    ensures Holds(s.flights[f].stage) ==> s.slots > 0
    ensures s.flights[f].stage.Running? ==> s.active > 0
    ensures s.slots == |Holders(s.flights)| <= SLOTS
  {
    hide Flying, Counted, Told, CachesBounded, CachesTrue;
    assert Holds(s.flights[f].stage) ==> f in Holders(s.flights);
    assert s.flights[f].stage.Running? ==> f in Callees(s.flights);
  }

  /** A flight that waits for a slot is given one exactly when fewer than two are held. */
  lemma SlotIsGivenExactly(s: State, f: Id)
    requires Sound(s) && f in s.flights
    ensures After(s, Acquire(f)) != s <==> s.flights[f].stage.Queued? && |Holders(s.flights)| < 2
    ensures After(s, Acquire(f)) != s ==>
      After(s, Acquire(f)).flights == s.flights[f := s.flights[f].(stage := Slotted)]
  {
    hide Flying, Counted, Told, CachesBounded, CachesTrue, Holders;
  }

  lemma StageMoves(s: State, f: Id, o: Outcome)
    requires Sound(s) && f in s.flights && !s.flights[f].stage.Finished? && !s.flights[f].stage.Checked?
    requires s.flights[f].stage.Queued? ==> s.slots < SLOTS
    requires Holds(s.flights[f].stage) ==> s.slots > 0
    requires s.flights[f].stage.Running? ==> s.active > 0
    ensures
      var t := After(s, NextStep(f, s.flights[f].stage, o));
      OnlyStage(s, t, f) && t.flights[f].stage == NextStage(s.flights[f], o)
  {
    hide Sound, Completed, Entered, Gateway.Left, AllCancelled, Emptied;
  }

  lemma EndMoves(s: State, f: Id)
    requires Sound(s) && f in s.flights && s.flights[f].stage.Checked?
    ensures
      var t := After(s, Complete(f, 0));
      OnlyStage(s, t, f) && t.flights[f].stage == Finished(s.flights[f].stage.outcome)
  {
    hide Sound, Completed;
    CompletedFrame(s, f, 0);
    CompletedBudget(s, f, 0);
  }

  /** A flight that is not waiting for a slot, or has one free for it, can take its next step. */
  lemma MovesOn(s: State, f: Id, o: Outcome)
    requires Sound(s) && f in s.flights && !s.flights[f].stage.Finished?
    requires s.flights[f].stage.Queued? ==> s.slots < SLOTS
    ensures
      var t := After(s, NextStep(f, s.flights[f].stage, o));
      && Sound(t) && OnlyStage(s, t, f) && t.flights[f].stage == NextStage(s.flights[f], o)
  {
    hide Sound, After, Holders, OnlyStage;
    StepKeepsSound(s, NextStep(f, s.flights[f].stage, o));
    CountsHolders(s, f);
    if s.flights[f].stage.Checked? {
      EndMoves(s, f);
    } else {
      StageMoves(s, f, o);
    }
  }

  lemma StagesJoin(s: State, t: State, u: State, f: Id)
    requires OnlyStage(s, t, f) && OnlyStage(t, u, f)
    ensures OnlyStage(s, u, f)
  {
  }

  lemma EndingStays(flight: Flight, o: Outcome)
    requires !flight.stage.Finished?
    ensures Ending(flight.(stage := NextStage(flight, o)), o) == Ending(flight, o)
    ensures Left(NextStage(flight, o)) < Left(flight.stage)
  {
  }

  /** Such a flight can go on to its end, whatever the others do. */
  lemma {:induction false} Finishes(s: State, f: Id, o: Outcome) returns (steps: seq<Step>)
    requires Sound(s) && f in s.flights && (s.flights[f].stage.Queued? ==> s.slots < SLOTS)
    ensures forall x :: x in steps ==> OwnStep(x)
    ensures Sound(Run(s, steps)) && OnlyStage(s, Run(s, steps), f)
    ensures Run(s, steps).flights[f].stage == Finished(Ending(s.flights[f], o))
    decreases Left(s.flights[f].stage)
  {
    hide Sound, After, Ending;
    steps := [];
    if s.flights[f].stage.Finished? {
      FinishedEnding(s.flights[f], o);
    } else {
      var step := NextStep(f, s.flights[f].stage, o);
      MovesOn(s, f, o);
      EndingStays(s.flights[f], o);
      var t := After(s, step);
      var rest := Finishes(t, f, o);
      steps := [step] + rest;
      assert steps[1..] == rest;
      StagesJoin(s, t, Run(t, rest), f);
    }
  }

  lemma FinishedEnding(flight: Flight, o: Outcome)
    requires flight.stage.Finished?
    ensures flight.stage == Finished(Ending(flight, o))
  {
  }

  // ---------- All flights but one ----------

  function Others(flights: map<Id, Flight>, f: Id): set<Id> {
    set g | g in flights && g != f && !flights[g].stage.Finished?
  }

  /** The others may have moved on; flight f, callers and results have not changed. */
  ghost predicate Around(s: State, t: State, f: Id) {
    && f in s.flights && f in t.flights && t.flights[f] == s.flights[f]
    && t.callers == s.callers && t.got == s.got && t.closed == s.closed
  }

  lemma {:induction false} RunsJoin(s: State, a: seq<Step>, b: seq<Step>)
    requires Sound(s) && Sound(Run(s, a))
    ensures Run(s, a + b) == Run(Run(s, a), b)
    decreases |a|
  {
    hide Sound, After;
    if a == [] {
      assert a + b == b;
    } else {
      StepKeepsSound(s, a[0]);
      RunsJoin(After(s, a[0]), a[1..], b);
      assert (a + b)[1..] == a[1..] + b;
    }
  }

  /** Which of the others to finish next: one that holds a slot, if there is one. */
  lemma NextOther(s: State, f: Id) returns (g: Id)
    requires Sound(s) && f in s.flights && Others(s.flights, f) != {}
    ensures g in Others(s.flights, f) && (s.flights[g].stage.Queued? ==> s.slots < SLOTS)
  {
    hide Sound;
    CountsHolders(s, f);
    if h :| h in Others(s.flights, f) && Holds(s.flights[h].stage) {
      g := h;
    } else {
      g :| g in Others(s.flights, f);
      assert Holders(s.flights) <= {f};
      Smaller(Holders(s.flights), {f});
    }
  }

  lemma OneFewer(s: State, t: State, f: Id, g: Id)
    requires OnlyStage(s, t, g) && g in Others(s.flights, f) && t.flights[g].stage.Finished?
    ensures Others(t.flights, f) == Others(s.flights, f) - {g}
    ensures f in s.flights ==> Around(s, t, f)
  {
  }

  /** All others can be brought to their ends. */
  lemma {:induction false} OthersFinish(s: State, f: Id) returns (steps: seq<Step>)
    requires Sound(s) && f in s.flights
    ensures forall x :: x in steps ==> OwnStep(x)
    ensures Sound(Run(s, steps)) && Around(s, Run(s, steps), f) && Others(Run(s, steps).flights, f) == {}
    decreases |Others(s.flights, f)|
  {
    hide Sound, After, OnlyStage, Others, Around;
    steps := [];
    if Others(s.flights, f) == {} {
      AroundItself(s, f);
    } else {
      var g := NextOther(s, f);
      InOthers(s.flights, f, g);
      var first := Finishes(s, g, Failed(Busy));
      var t := Run(s, first);
      OneFewer(s, t, f, g);
      AroundHas(s, t, f);
      var rest := OthersFinish(t, f);
      RunsJoin(s, first, rest);
      AroundsJoin(s, t, Run(t, rest), f);
      steps := first + rest;
    }
  }

  lemma InOthers(flights: map<Id, Flight>, f: Id, g: Id)
    requires g in Others(flights, f)
    ensures g in flights
  {
  }

  lemma AroundItself(s: State, f: Id)
    requires f in s.flights
    ensures Around(s, s, f)
  {
  }

  lemma AroundHas(s: State, t: State, f: Id)
    requires Around(s, t, f)
    ensures f in t.flights
  {
  }

  lemma AroundsJoin(s: State, t: State, u: State, f: Id)
    requires Around(s, t, f) && Around(t, u, f)
    ensures Around(s, u, f)
  {
  }

  /** Alone, a flight that waits for a slot finds both free. */
  lemma AloneHasSlot(s: State, f: Id)
    requires Sound(s) && f in s.flights && Others(s.flights, f) == {}
    ensures s.flights[f].stage.Queued? ==> s.slots < SLOTS
  {
    hide Sound;
    CountsHolders(s, f);
    assert forall g :: g in s.flights && g != f ==> g !in Others(s.flights, f);
    assert Holders(s.flights) <= {f};
    Smaller(Holders(s.flights), {f});
  }

  // ---------- A caller ----------

  lemma Receives(s: State, caller: Id)
    requires Sound(s) && caller in s.callers && s.callers[caller] in s.flights
    requires s.flights[s.callers[caller]].stage.Finished?
    ensures
      var t, f := After(s, Receive(caller)), s.callers[caller];
      caller in t.got && t.got[caller] == (f, s.flights[f].stage.outcome)
  {
    hide Sound, Gateway.Left;
    CountsOf(s);
    CallerCounted(s, caller);
  }

  /** From every reachable state the flights' own steps can bring each waiting caller the end of
      its flight: of a flight that was not cancelled, and whose provider has not answered yet,
      that is whatever the provider then answers. Nobody who waits is stuck, whatever the
      other flights are doing. */
  lemma EveryCallerCanBeServed(s: State, caller: Id, o: Outcome) returns (steps: seq<Step>)
    requires Sound(s) && caller in s.callers
    ensures s.callers[caller] in s.flights && forall x :: x in steps ==> OwnStep(x)
    ensures
      var t, f := Run(s, steps), s.callers[caller];
      caller in t.got && t.got[caller] == (f, Ending(s.flights[f], o))
  {
    hide Sound, After, Ending, Others;
    var f := s.callers[caller];
    CountsOf(s);
    CallerCounted(s, caller);
    var first := OthersFinish(s, f);
    var t := Run(s, first);
    AloneHasSlot(t, f);
    var second := Finishes(t, f, o);
    var u := Run(t, second);
    Receives(u, caller);
    RunsJoin(s, first, second);
    RunsJoin(s, first + second, [Receive(caller)]);
    StepKeepsSound(u, Receive(caller));
    assert Run(u, [Receive(caller)]) == After(u, Receive(caller)) by {
      assert [Receive(caller)][1..] == [];
    }
    steps := first + second + [Receive(caller)];
  }
}
