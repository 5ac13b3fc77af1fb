/** The gateway's fixed-window budgets (allow in backend/internal/learning/gateway.go):
    a minute per owner and kind, and an hour for everyone. */
module Budget {
  import opened Domain

  datatype Kind = Text | Speech | Authoring

  /** Hash of owner and kind, which determines both. */
  type Key = (Id, Kind)

  datatype Window = Window(start: int, count: nat)

  /** `log` is history: the admissions so far, oldest first. */
  datatype Admission = Admission(key: Key, now: int, minute: int, hour: int)

  datatype State = State(windows: map<Key, Window>, hour: Option<Window>, log: seq<Admission>)

  /** Milliseconds. */
  const MINUTE := 60000
  const HOUR := 3600000
  const OWNERS := 2048
  const HOURLY := 100

  function Cap(kind: Kind): nat {
    match kind
    case Text => 6
    case Speech => 12
    case Authoring => 3
  }

  function Expired(windows: map<Key, Window>, now: int): map<Key, Window> {
    map k | k in windows && now - windows[k].start < MINUTE :: windows[k]
  }

  /** The window a call counts in; None when the table is full. */
  function WindowFor(windows: map<Key, Window>, key: Key, now: int): Option<Window> {
    if key in windows then Some(windows[key])
    else if |windows| >= OWNERS then None
    else Some(Window(now, 0))
  }

  function HourFor(hour: Option<Window>, now: int): Window {
    if hour.None? || now - hour.value.start >= HOUR then Window(now, 0) else hour.value
  }

  /** allow */
  function Step(s: State, key: Key, now: int): (State, bool) {
    var windows := Expired(s.windows, now);
    var w := WindowFor(windows, key, now);
    if w.None? then (s.(windows := windows), false)
    else
      var hour := HourFor(s.hour, now);
      if w.value.count >= Cap(key.1) || hour.count >= HOURLY then (s.(windows := windows, hour := Some(hour)), false)
      else
        (State(windows[key := w.value.(count := w.value.count + 1)], Some(hour.(count := hour.count + 1)),
               s.log + [Admission(key, now, w.value.start, hour.start)]), true)
  }

  // ---------- Fixed windows ----------

  /** An admission at a time, counted in the window that began at `start`. */
  datatype Stamp = Stamp(time: int, start: int)

  function CountStart(stamps: seq<Stamp>, start: int): nat {
    if stamps == [] then 0
    else CountStart(stamps[..|stamps| - 1], start) + (if stamps[|stamps| - 1].start == start then 1 else 0)
  }

  function CountIn(stamps: seq<Stamp>, from: int, until: int): nat {
    if stamps == [] then 0
    else
      var time := stamps[|stamps| - 1].time;
      CountIn(stamps[..|stamps| - 1], from, until) + (if from <= time < until then 1 else 0)
  }

  /** Windows of one length follow each other without overlap, and none is over its cap. */
  ghost predicate Windowed(stamps: seq<Stamp>, length: int, cap: nat) {
    && (forall s :: s in stamps ==> s.start <= s.time < s.start + length)
    && (forall s, t :: s in stamps && t in stamps ==>
          s.start == t.start || s.start + length <= t.start || t.start + length <= s.start)
    && (forall s :: s in stamps ==> CountStart(stamps, s.start) <= cap)
  }

  /** Stamps in [from, from + length) whose window began in (low, low + length]. */
  function CountBoth(stamps: seq<Stamp>, from: int, length: int, low: int): nat {
    if stamps == [] then 0
    else
      var s := stamps[|stamps| - 1];
      CountBoth(stamps[..|stamps| - 1], from, length, low)
      + (if from <= s.time < from + length && low < s.start <= low + length then 1 else 0)
  }

  lemma {:induction false} Splits(stamps: seq<Stamp>, from: int, length: int)
    requires length > 0 && forall s :: s in stamps ==> s.start <= s.time < s.start + length
    ensures CountIn(stamps, from, from + length)
      == CountBoth(stamps, from, length, from - length) + CountBoth(stamps, from, length, from)
    decreases |stamps|
  {
    if stamps != [] {
      var last := |stamps| - 1;
      assert stamps == stamps[..last] + [stamps[last]];
      Splits(stamps[..last], from, length);
    }
  }

  lemma {:induction false} FewerThanStart(stamps: seq<Stamp>, from: int, length: int, low: int, start: int)
    requires forall s :: s in stamps && low < s.start <= low + length && from <= s.time < from + length ==>
      s.start == start
    ensures CountBoth(stamps, from, length, low) <= CountStart(stamps, start)
    decreases |stamps|
  {
    if stamps != [] {
      var last := |stamps| - 1;
      assert stamps == stamps[..last] + [stamps[last]];
      FewerThanStart(stamps[..last], from, length, low, start);
    }
  }

  lemma {:induction false} NoneCounted(stamps: seq<Stamp>, from: int, length: int, low: int)
    requires forall s :: s in stamps ==> !(low < s.start <= low + length && from <= s.time < from + length)
    ensures CountBoth(stamps, from, length, low) == 0
    decreases |stamps|
  {
    if stamps != [] {
      var last := |stamps| - 1;
      assert stamps == stamps[..last] + [stamps[last]];
      NoneCounted(stamps[..last], from, length, low);
    }
  }

  /** Windows that begin within one length of each other are the same window. */
  lemma OneWindow(stamps: seq<Stamp>, length: int, cap: nat, from: int, low: int)
    requires length > 0 && Windowed(stamps, length, cap)
    ensures CountBoth(stamps, from, length, low) <= cap
  {
    if s :| s in stamps && low < s.start <= low + length && from <= s.time < from + length {
      FewerThanStart(stamps, from, length, low, s.start);
    } else {
      NoneCounted(stamps, from, length, low);
    }
  }

  /** Fixed windows admit at most twice their cap in any stretch of their length, wherever
      it begins. */
  lemma TwiceTheCap(stamps: seq<Stamp>, length: int, cap: nat, from: int)
    requires length > 0 && Windowed(stamps, length, cap)
    ensures CountIn(stamps, from, from + length) <= 2 * cap
  {
    Splits(stamps, from, length);
    OneWindow(stamps, length, cap, from, from - length);
    OneWindow(stamps, length, cap, from, from);
  }

  // ---------- The log in windows ----------

  function Minutes(log: seq<Admission>, key: Key): seq<Stamp> {
    if log == [] then []
    else
      var a := log[|log| - 1];
      Minutes(log[..|log| - 1], key) + (if a.key == key then [Stamp(a.now, a.minute)] else [])
  }

  function Hours(log: seq<Admission>): (r: seq<Stamp>)
    ensures |r| == |log|
  {
    if log == [] then []
    else Hours(log[..|log| - 1]) + [Stamp(log[|log| - 1].now, log[|log| - 1].hour)]
  }

  /** Stamps of earlier windows ended before `start`; those of this one number `count`. */
  ghost predicate Current(stamps: seq<Stamp>, length: int, start: int, count: nat, now: int) {
    && start <= now
    && CountStart(stamps, start) == count
    && forall s :: s in stamps ==> s.start == start || s.start + length <= start
  }

  ghost predicate Past(stamps: seq<Stamp>, length: int, now: int) {
    forall s :: s in stamps ==> s.start + length <= now
  }

  /** One owner and kind: past windows kept their cap, and the table has the current one. */
  ghost predicate KeySound(windows: map<Key, Window>, log: seq<Admission>, key: Key, now: int) {
    && Windowed(Minutes(log, key), MINUTE, Cap(key.1))
    && if key in windows then
         Current(Minutes(log, key), MINUTE, windows[key].start, windows[key].count, now)
         && windows[key].count <= Cap(key.1)
       else Past(Minutes(log, key), MINUTE, now)
  }

  ghost predicate HourSound(hour: Option<Window>, log: seq<Admission>, now: int) {
    && Windowed(Hours(log), HOUR, HOURLY)
    && if hour.Some? then
         Current(Hours(log), HOUR, hour.value.start, hour.value.count, now) && hour.value.count <= HOURLY
       else log == []
  }

  ghost predicate Sound(s: State, now: int) {
    && |s.windows| <= OWNERS
    && (forall key: Key :: KeySound(s.windows, s.log, key, now))
    && HourSound(s.hour, s.log, now)
  }

  lemma {:induction false} NoneOf(stamps: seq<Stamp>, start: int)
    requires forall s :: s in stamps ==> s.start != start
    ensures CountStart(stamps, start) == 0
    decreases |stamps|
  {
    if stamps != [] {
      var last := |stamps| - 1;
      assert stamps == stamps[..last] + [stamps[last]];
      NoneOf(stamps[..last], start);
    }
  }

  lemma OneMore(stamps: seq<Stamp>, t: Stamp, start: int)
    ensures CountStart(stamps + [t], start) == CountStart(stamps, start) + (if t.start == start then 1 else 0)
  {
    assert (stamps + [t])[..|stamps|] == stamps;
  }

  /** Another admission in the current window, below the cap. */
  lemma WindowGrows(stamps: seq<Stamp>, length: int, cap: nat, start: int, count: nat, now: int)
    requires Windowed(stamps, length, cap) && Current(stamps, length, start, count, now)
    requires count < cap && now < start + length
    ensures Windowed(stamps + [Stamp(now, start)], length, cap)
    ensures Current(stamps + [Stamp(now, start)], length, start, count + 1, now)
  {
    var grown := stamps + [Stamp(now, start)];
    forall s | s in grown
      ensures CountStart(grown, s.start) <= cap
    {
      OneMore(stamps, Stamp(now, start), s.start);
    }
    OneMore(stamps, Stamp(now, start), start);
  }

  /** A window that begins now, after all others ended. */
  lemma WindowBegins(stamps: seq<Stamp>, length: int, now: int)
    requires length > 0 && Past(stamps, length, now)
    ensures Current(stamps, length, now, 0, now)
  {
    NoneOf(stamps, now);
  }

  /** What calls leave behind: windows that are still running. */
  ghost predicate Running(s: State, now: int) {
    && (forall key :: key in s.windows ==> now < s.windows[key].start + MINUTE)
    && (s.hour.Some? ==> now < s.hour.value.start + HOUR)
  }

  lemma ExpiredSize(windows: map<Key, Window>, now: int)
    ensures |Expired(windows, now)| <= |windows|
  {
    var kept := Expired(windows, now);
    assert windows.Keys == kept.Keys + (windows.Keys - kept.Keys);
    assert |kept.Keys| == |kept| && |windows.Keys| == |windows|;
  }

  lemma CurrentLater(stamps: seq<Stamp>, length: int, start: int, count: nat, t: int, now: int)
    requires Current(stamps, length, start, count, t) && t <= now && length > 0
    ensures Current(stamps, length, start, count, now)
    ensures now >= start + length ==> Past(stamps, length, now)
  {
  }

  /** Dropping windows that are over, at the time of a call. */
  lemma ExpiryKeeps(s: State, t: int, now: int)
    requires Sound(s, t) && t <= now
    ensures Sound(s.(windows := Expired(s.windows, now), hour := Some(HourFor(s.hour, now))), now)
    ensures Sound(s.(windows := Expired(s.windows, now)), now)
    ensures Running(s.(windows := Expired(s.windows, now), hour := Some(HourFor(s.hour, now))), now)
  {
    hide Windowed, Current, Past;
    ExpiredSize(s.windows, now);
    var windows := Expired(s.windows, now);
    forall key: Key
      ensures KeySound(windows, s.log, key, now)
    {
      assert KeySound(s.windows, s.log, key, t);
      if key in s.windows {
        CurrentLater(Minutes(s.log, key), MINUTE, s.windows[key].start, s.windows[key].count, t, now);
      } else {
        PastLater(Minutes(s.log, key), MINUTE, t, now);
      }
    }
    if s.hour.Some? {
      CurrentLater(Hours(s.log), HOUR, s.hour.value.start, s.hour.value.count, t, now);
      if now - s.hour.value.start >= HOUR {
        WindowBegins(Hours(s.log), HOUR, now);
      }
    } else {
      WindowBegins(Hours(s.log), HOUR, now);
    }
  }

  lemma PastLater(stamps: seq<Stamp>, length: int, t: int, now: int)
    requires Past(stamps, length, t) && t <= now
    ensures Past(stamps, length, now)
  {
  }

  lemma LogGrows(log: seq<Admission>, a: Admission, key: Key)
    ensures Minutes(log + [a], key)
      == if a.key == key then Minutes(log, key) + [Stamp(a.now, a.minute)] else Minutes(log, key)
    ensures Hours(log + [a]) == Hours(log) + [Stamp(a.now, a.hour)]
  {
    assert (log + [a])[..|log|] == log;
    assert Minutes(log, key) + [] == Minutes(log, key);
  }

  lemma KeyCounted(windows: map<Key, Window>, log: seq<Admission>, a: Admission, w: Window, key: Key, now: int)
    requires KeySound(windows, log, key, now) && a.now == now
    requires a.key == key ==>
      a.minute == w.start && w.count < Cap(key.1) && now < w.start + MINUTE
      && w == if key in windows then windows[key] else Window(now, 0)
    ensures KeySound(windows[a.key := w.(count := w.count + 1)], log + [a], key, now)
  {
    hide Windowed, Current, Past;
    LogGrows(log, a, key);
    if a.key == key {
      if key !in windows {
        WindowBegins(Minutes(log, key), MINUTE, now);
      }
      WindowGrows(Minutes(log, key), MINUTE, Cap(key.1), w.start, w.count, now);
    }
  }

  lemma CountedKeeps(s: State, key: Key, w: Window, hour: Window, now: int)
    requires Sound(s, now) && Running(s, now) && s.hour == Some(hour)
    requires WindowFor(s.windows, key, now) == Some(w) && w.count < Cap(key.1) && hour.count < HOURLY
    ensures Sound(State(s.windows[key := w.(count := w.count + 1)], Some(hour.(count := hour.count + 1)),
                        s.log + [Admission(key, now, w.start, hour.start)]), now)
  {
    hide Windowed, Current, Past, KeySound, Hours;
    var a := Admission(key, now, w.start, hour.start);
    var windows := s.windows[key := w.(count := w.count + 1)];
    WindowGrows(Hours(s.log), HOUR, HOURLY, hour.start, hour.count, now);
    forall k: Key
      ensures KeySound(windows, s.log + [a], k, now)
    {
      KeyCounted(s.windows, s.log, a, w, k, now);
    }
    LogGrows(s.log, a, key);
  }

  lemma StepKeepsSound(s: State, key: Key, t: int, now: int)
    requires Sound(s, t) && t <= now
    ensures Sound(Step(s, key, now).0, now)
  {
    hide Sound, Running;
    ExpiryKeeps(s, t, now);
    var windows, hour := Expired(s.windows, now), HourFor(s.hour, now);
    var w := WindowFor(windows, key, now);
    if w.Some? && w.value.count < Cap(key.1) && hour.count < HOURLY {
      CountedKeeps(s.(windows := windows, hour := Some(hour)), key, w.value, hour, now);
    }
  }

  // ---------- Runs ----------

  datatype Call = Call(key: Key, now: int)

  predicate InOrder(calls: seq<Call>) {
    forall i, j :: 0 <= i <= j < |calls| ==> calls[i].now <= calls[j].now
  }

  function After(calls: seq<Call>, k: nat): State
    requires k <= |calls|
  {
    if k == 0 then State(map[], None, []) else Step(After(calls, k - 1), calls[k - 1].key, calls[k - 1].now).0
  }

  lemma {:induction false} RunIsSound(calls: seq<Call>, k: nat)
    requires InOrder(calls) && 0 < k <= |calls|
    ensures Sound(After(calls, k), calls[k - 1].now)
  {
    hide Sound, Step;
    if k == 1 {
      StartIsSound(calls[0].now);
      StepKeepsSound(After(calls, 0), calls[0].key, calls[0].now, calls[0].now);
    } else {
      RunIsSound(calls, k - 1);
      StepKeepsSound(After(calls, k - 1), calls[k - 1].key, calls[k - 2].now, calls[k - 1].now);
    }
  }

  lemma StartIsSound(now: int)
    ensures Sound(State(map[], None, []), now)
  {
    assert Hours([]) == [];
    forall key: Key
      ensures KeySound(map[], [], key, now)
    {
      assert Minutes([], key) == [];
    }
  }

  /** Over any run: in any minute an owner is admitted at most twice the cap of a kind, in
      any hour everyone together at most 200 times, and at most 2048 windows are kept. */
  lemma BudgetBound(calls: seq<Call>, k: nat, key: Key, from: int)
    requires InOrder(calls) && k <= |calls|
    ensures CountIn(Minutes(After(calls, k).log, key), from, from + MINUTE) <= 2 * Cap(key.1)
    ensures CountIn(Hours(After(calls, k).log), from, from + HOUR) <= 200
    ensures |After(calls, k).windows| <= OWNERS
  {
    hide Step;
    if k > 0 {
      RunIsSound(calls, k);
    } else {
      StartIsSound(0);
    }
    var now := if k > 0 then calls[k - 1].now else 0;
    assert KeySound(After(calls, k).windows, After(calls, k).log, key, now);
    TwiceTheCap(Minutes(After(calls, k).log, key), MINUTE, Cap(key.1), from);
    TwiceTheCap(Hours(After(calls, k).log), HOUR, HOURLY, from);
  }

  // ---------- When a call is refused ----------

  /** Admissions of the key in its current window, and of everyone in the current hour. */
  function MinuteCount(s: State, key: Key, now: int): nat {
    if key in s.windows && now < s.windows[key].start + 60000 then s.windows[key].count else 0
  }

  function HourCount(s: State, now: int): nat {
    if s.hour.Some? && now < s.hour.value.start + 3600000 then s.hour.value.count else 0
  }

  /** The keys whose windows are still running. */
  function RunningKeys(s: State, now: int): set<Key> {
    set k | k in s.windows && now < s.windows[k].start + 60000
  }

  function PerMinute(kind: Kind): nat {
    match kind
    case Text => 6
    case Speech => 12
    case Authoring => 3
  }

  /** A call is admitted exactly when its owner has admissions of its kind left in the current
      minute, everyone together has some left in the current hour, and the key has a window
      or there is room for one. */
  lemma AdmitsExactly(s: State, key: Key, now: int)
    ensures Step(s, key, now).1 <==>
      && MinuteCount(s, key, now) < PerMinute(key.1) && HourCount(s, now) < 100
      && (key in RunningKeys(s, now) || |RunningKeys(s, now)| < 2048)
  {
    var windows := Expired(s.windows, now);
    assert windows.Keys == RunningKeys(s, now);
    assert |windows.Keys| == |windows|;
  }

  /** The hour a call counts in: the running one, or one that begins with the call. */
  function HourOf(s: State, now: int): Window {
    if s.hour.Some? && now < s.hour.value.start + 3600000 then s.hour.value else Window(now, 0)
  }

  /** The windows that are still running. */
  function RunningWindows(s: State, now: int): map<Key, Window> {
    map k | k in s.windows && now < s.windows[k].start + 60000 :: s.windows[k]
  }

  /** The window a call counts in, if it is the one more that is admitted. */
  function Counted(s: State, key: Key, now: int): Window {
    var windows := RunningWindows(s, now);
    if key in windows then Window(windows[key].start, windows[key].count + 1) else Window(now, 1)
  }

  lemma ExpiredIsRunning(s: State, now: int)
    ensures Expired(s.windows, now) == RunningWindows(s, now)
    ensures |RunningKeys(s, now)| == |RunningWindows(s, now)| && RunningKeys(s, now) == RunningWindows(s, now).Keys
  {
    assert |RunningWindows(s, now).Keys| == |RunningWindows(s, now)|;
  }

  /** What a call leaves: the windows that are still running, with one admission more in the
      caller's if it was admitted, in one that begins now if there was none; and the hour, which
      begins with the first call that finds a window, admitted or not. */
  lemma WindowsAreExact(s: State, key: Key, now: int)
    ensures
      var (t, admitted) := Step(s, key, now);
      var windows, hour := RunningWindows(s, now), HourOf(s, now);
      && t.windows == (if admitted then windows[key := Counted(s, key, now)] else windows)
      && t.hour ==
           (if key in windows || |RunningKeys(s, now)| < 2048 then
              Some(Window(hour.start, hour.count + (if admitted then 1 else 0)))
            else s.hour)
  {
    hide Expired, RunningWindows, RunningKeys;
    ExpiredIsRunning(s, now);
  }

  /** Stamps of a window lie in it. */
  lemma {:induction false} CountedIn(stamps: seq<Stamp>, length: int, start: int)
    requires forall s :: s in stamps ==> s.start <= s.time < s.start + length
    ensures CountStart(stamps, start) <= CountIn(stamps, start, start + length)
    decreases |stamps|
  {
    if stamps != [] {
      var last := |stamps| - 1;
      assert stamps == stamps[..last] + [stamps[last]];
      CountedIn(stamps[..last], length, start);
    }
  }

  /** Admissions in the stretch of the given length from a time on. */
  function Since(stamps: seq<Stamp>, from: int, length: int): nat {
    CountIn(stamps, from, from + length)
  }

  /** The cap was used up in a stretch of the given length that began less than that ago. */
  ghost predicate UsedUp(stamps: seq<Stamp>, length: int, cap: nat, now: int) {
    exists from :: now - length < from <= now && Since(stamps, from, length) >= cap
  }

  lemma FullWindowIsUsedUp(stamps: seq<Stamp>, length: int, cap: nat, start: int, count: nat, t: int, now: int)
    requires Windowed(stamps, length, cap) && Current(stamps, length, start, count, t) && t <= now
    requires now < start + length && count >= cap
    ensures UsedUp(stamps, length, cap, now)
  {
    CountedIn(stamps, length, start);
    assert now - length < start <= now && Since(stamps, start, length) >= cap;
  }

  lemma RefusalHasCause(s: State, key: Key, t: int, now: int)
    requires Sound(s, t) && t <= now && !Step(s, key, now).1
    ensures UsedUp(Minutes(s.log, key), MINUTE, PerMinute(key.1), now) || UsedUp(Hours(s.log), HOUR, 100, now)
      || |RunningKeys(s, now)| >= 2048
  {
    hide Windowed, Current, UsedUp, CountIn, CountStart, Step;
    AdmitsExactly(s, key, now);
    assert KeySound(s.windows, s.log, key, t);
    if MinuteCount(s, key, now) >= PerMinute(key.1) {
      FullWindowIsUsedUp(Minutes(s.log, key), MINUTE, Cap(key.1), s.windows[key].start, s.windows[key].count, t, now);
    } else if HourCount(s, now) >= 100 {
      FullWindowIsUsedUp(Hours(s.log), HOUR, HOURLY, s.hour.value.start, s.hour.value.count, t, now);
    }
  }

  /** Over any run a call is refused only when its owner's cap was used up in a minute that
      began less than a minute ago, everyone's in such an hour, or 2048 windows are running. */
  lemma RefusedCallHasCause(calls: seq<Call>, k: nat)
    requires InOrder(calls) && k < |calls|
    ensures
      var s, key, now := After(calls, k), calls[k].key, calls[k].now;
      Step(s, key, now).1
      || UsedUp(Minutes(s.log, key), MINUTE, PerMinute(key.1), now) || UsedUp(Hours(s.log), HOUR, 100, now)
      || |RunningKeys(s, now)| >= 2048
  {
    hide Step, UsedUp, Sound;
    var s, now := After(calls, k), calls[k].now;
    if k > 0 {
      RunIsSound(calls, k);
    } else {
      StartIsSound(now);
    }
    if !Step(s, calls[k].key, now).1 {
      RefusalHasCause(s, calls[k].key, if k > 0 then calls[k - 1].now else now, now);
    }
  }
}
