/** Attempt plans: drawing one (backend/internal/domain/attempt.go), the server's two
    validators (attempt.go and transition.lua) and presentation of a question. */
module Attempt {
  import opened Domain

  // ---------- Fisher-Yates ----------

  /** domain.RandomInt: what its calls bring back, in order. None is an error, any
      integer may come back, and a source that has run dry fails. */
  type Source = seq<Option<int>>

  function Draw(random: Source, k: nat): Option<int> {
    if k < |random| then random[k] else None
  }

  /** Draw k of a shuffle of n ids is made for position n-1-k and may pick 0..n-1-k. */
  predicate Usable(js: seq<int>, n: nat) {
    && |js| == (if n == 0 then 0 else n - 1)
    && forall k :: 0 <= k < |js| ==> 0 <= js[k] <= n - 1 - k
  }

  function Swap(s: seq<Id>, i: nat, j: nat): (r: seq<Id>)
    requires i < |s| && j < |s|
    ensures |r| == |s|
  {
    s[i := s[j]][j := s[i]]
  }

  lemma SwapKeeps(s: seq<Id>, i: nat, j: nat)
    requires i < |s| && j < |s|
    ensures Permutes(Swap(s, i, j), s)
  {
  }

  /** The whole effect of a shuffle: the last place is settled first. */
  function Shuffled(s: seq<Id>, js: seq<int>): (r: seq<Id>)
    requires Usable(js, |s|)
    ensures |r| == |s|
    decreases |s|
  {
    if |s| <= 1 then s
    else
      var last := |s| - 1;
      var t := Swap(s, last, js[0]);
      Shuffled(t[..last], js[1..]) + [t[last]]
  }

  lemma {:induction false} ShuffleKeepsMembers(s: seq<Id>, js: seq<int>)
    requires Usable(js, |s|)
    ensures Permutes(Shuffled(s, js), s)
    decreases |s|
  {
    if |s| > 1 {
      var last := |s| - 1;
      var t := Swap(s, last, js[0]);
      SwapKeeps(s, last, js[0]);
      ShuffleKeepsMembers(t[..last], js[1..]);
      assert t == t[..last] + [t[last]];
    }
  }

  lemma DropLast(s: seq<Id>)
    requires s != []
    ensures s == s[..|s| - 1] + [s[|s| - 1]]
    ensures multiset(s[..|s| - 1]) == multiset(s) - multiset{s[|s| - 1]}
  {
    assert s == s[..|s| - 1] + [s[|s| - 1]];
  }

  lemma Holds(s: seq<Id>, t: seq<Id>, x: Id) returns (j: nat)
    requires Permutes(s, t) && x in s
    ensures j < |t| && t[j] == x
  {
    assert x in multiset(t);
    j :| j < |t| && t[j] == x;
  }

  lemma SameLength(a: seq<Id>, b: seq<Id>)
    requires Permutes(a, b)
    ensures |a| == |b|
  {
    assert |multiset(a)| == |a| && |multiset(b)| == |b|;
  }

  lemma TailPermutes(s: seq<Id>, goal: seq<Id>, j: nat)
    requires Permutes(goal, s) && |s| == |goal| > 1
    requires j < |s| && s[j] == goal[|s| - 1]
    ensures Permutes(goal[..|s| - 1], Swap(s, |s| - 1, j)[..|s| - 1])
    ensures Swap(s, |s| - 1, j)[|s| - 1] == goal[|s| - 1]
  {
    var t := Swap(s, |s| - 1, j);
    SwapKeeps(s, |s| - 1, j);
    assert t[|s| - 1] == goal[|s| - 1];
    hide Swap;
    DropLast(t);
    DropLast(goal);
  }

  /** No order is out of reach: every permutation comes from some usable draws. */
  lemma {:induction false} ShuffleReachesEveryOrder(s: seq<Id>, goal: seq<Id>) returns (js: seq<int>)
    requires Permutes(goal, s)
    ensures Usable(js, |s|) && Shuffled(s, js) == goal
    decreases |s|
  {
    hide Swap, Permutes;
    SameLength(goal, s);
    js := [];
    if |s| == 1 {
      var j := Holds(goal, s, goal[0]);
    } else if |s| > 1 {
      var last := |s| - 1;
      var j := Holds(goal, s, goal[last]);
      TailPermutes(s, goal, j);
      var rest := ShuffleReachesEveryOrder(Swap(s, last, j)[..last], goal[..last]);
      assert goal == goal[..last] + [goal[last]];
      js := [j] + rest;
    }
  }

  lemma SwapKeepsDistinct(s: seq<Id>, i: nat, j: nat)
    requires Distinct(s) && i < |s| && j < |s|
    ensures Distinct(Swap(s, i, j)[..|s| - 1])
  {
  }

  /** And no order is likelier than another: of distinct ids, different draws make different
      orders, so there are exactly as many usable draws as orders. */
  lemma {:induction false} ShuffleTellsDrawsApart(s: seq<Id>, js: seq<int>, ks: seq<int>)
    requires Distinct(s) && Usable(js, |s|) && Usable(ks, |s|) && Shuffled(s, js) == Shuffled(s, ks)
    ensures js == ks
    decreases |s|
  {
    hide Distinct;
    if |s| > 1 {
      var last := |s| - 1;
      var t, u := Swap(s, last, js[0]), Swap(s, last, ks[0]);
      var a, b := Shuffled(t[..last], js[1..]), Shuffled(u[..last], ks[1..]);
      assert Shuffled(s, js)[last] == t[last] == s[js[0]] && Shuffled(s, ks)[last] == u[last] == s[ks[0]];
      PlacesDiffer(s, js[0], ks[0]);
      assert a == Shuffled(s, js)[..last] && b == Shuffled(s, ks)[..last];
      SwapKeepsDistinct(s, last, js[0]);
      ShuffleTellsDrawsApart(t[..last], js[1..], ks[1..]);
      assert js == [js[0]] + js[1..] && ks == [ks[0]] + ks[1..];
    }
  }

  lemma PlacesDiffer(s: seq<Id>, i: nat, j: nat)
    requires Distinct(s) && i < |s| && j < |s| && s[i] == s[j]
    ensures i == j
  {
  }

  /** The draws a shuffle of n ids takes when the first call of `random` is number `at`. */
  function Draws(random: Source, at: nat, n: nat): (r: Option<seq<int>>)
    ensures r.Some? ==> Usable(r.value, n)
    decreases n
  {
    if n <= 1 then Some([])
    else
      var d := Draw(random, at);
      if d.None? || d.value < 0 || d.value >= n then None
      else
        var rest := Draws(random, at + 1, n - 1);
        if rest.None? then None else Some([d.value] + rest.value)
  }

  lemma ShuffleStep(a: seq<Id>, i: nat, j: nat, rest: seq<int>, b: seq<Id>)
    requires 0 < i < |a| && j <= i && Usable(rest, i)
    requires b == Swap(a, i, j)
    ensures Usable([j] + rest, i + 1)
    ensures Shuffled(a[..i + 1], [j] + rest) + a[i + 1..] == Shuffled(b[..i], rest) + b[i..]
  {
    var front := a[..i + 1];
    assert Swap(front, i, j)[..i] == b[..i];
    assert b[i..] == [b[i]] + a[i + 1..];
  }

  /** What a shuffle whose next place is i will have made of s. */
  ghost function Outcome(s: seq<Id>, i: int, random: Source, next: nat): seq<Id>
    requires -1 <= i < |s| && Draws(random, next, i + 1).Some?
  {
    Shuffled(s[..i + 1], Draws(random, next, i + 1).value) + s[i + 1..]
  }

  lemma OutcomeStep(s: seq<Id>, i: nat, random: Source, next: nat)
    requires 0 < i < |s| && Draw(random, next).Some? && 0 <= Draw(random, next).value <= i
    ensures Draws(random, next, i + 1).Some? <==> Draws(random, next + 1, i).Some?
    ensures Draws(random, next, i + 1).Some? ==>
      Outcome(s, i, random, next) == Outcome(Swap(s, i, Draw(random, next).value), i - 1, random, next + 1)
  {
    if Draws(random, next + 1, i).Some? {
      var j := Draw(random, next).value;
      ShuffleStep(s, i, j, Draws(random, next + 1, i).value, Swap(s, i, j));
    }
  }

  /** The loop invariant of Shuffle: what is left to draw turns `now` into the result. */
  ghost predicate Underway(start: seq<Id>, random: Source, at: nat, now: seq<Id>, i: int, next: nat) {
    && -1 <= i < |now| && |now| == |start| && (i == -1 ==> start == [])
    && (Draws(random, at, |start|).Some? <==> Draws(random, next, i + 1).Some?)
    && (Draws(random, at, |start|).Some? ==>
          Outcome(now, i, random, next) == Shuffled(start, Draws(random, at, |start|).value))
  }

  lemma ShuffleBegins(start: seq<Id>, random: Source, at: nat)
    ensures Underway(start, random, at, start, |start| - 1, at)
  {
    if Draws(random, at, |start|).Some? {
      OutcomeStart(start, random, at);
    }
  }

  lemma ShuffleMoves(start: seq<Id>, random: Source, at: nat, now: seq<Id>, i: int, next: nat)
    requires Underway(start, random, at, now, i, next) && i > 0
    requires Draw(random, next).Some? && 0 <= Draw(random, next).value <= i
    ensures Underway(start, random, at, Swap(now, i, Draw(random, next).value), i - 1, next + 1)
  {
    OutcomeStep(now, i, random, next);
  }

  lemma ShuffleEnds(start: seq<Id>, random: Source, at: nat, now: seq<Id>, i: int, next: nat)
    requires Underway(start, random, at, now, i, next) && i <= 0
    ensures Draws(random, at, |start|).Some?
    ensures now == Shuffled(start, Draws(random, at, |start|).value) && Permutes(now, start)
  {
    ShuffleKeepsMembers(start, Draws(random, at, |start|).value);
  }

  lemma OutcomeStart(s: seq<Id>, random: Source, at: nat)
    requires Draws(random, at, |s|).Some?
    ensures Outcome(s, |s| - 1, random, at) == Shuffled(s, Draws(random, at, |s|).value)
  {
    assert s[..|s|] == s && s[|s|..] == [];
  }

  method Exchange(ids: array<Id>, i: nat, j: nat)
    requires i < ids.Length && j < ids.Length
    modifies ids
    ensures ids[..] == Swap(old(ids[..]), i, j)
  {
    ids[i], ids[j] := ids[j], ids[i];
  }

  /** shuffle: in place, from the last id down; an invalid draw abandons it. */
  method Shuffle(ids: array<Id>, random: Source, at: nat) returns (ok: bool, next: nat)
    modifies ids
    ensures ok <==> Draws(random, at, ids.Length).Some?
    ensures ok ==> ids[..] == Shuffled(old(ids[..]), Draws(random, at, ids.Length).value)
    ensures ok ==> Permutes(ids[..], old(ids[..]))
    ensures ok ==> next == at + (if ids.Length == 0 then 0 else ids.Length - 1)
  {
    next := at;
    var i := ids.Length - 1;
    ghost var start := ids[..];
    ghost var now := start;
    ShuffleBegins(start, random, at);
    while i > 0
      invariant now == ids[..] && |now| == ids.Length
      invariant next - at == ids.Length - 1 - i && (ids.Length > 0 ==> i >= 0)
      invariant Underway(start, random, at, now, i, next)
    {
      var j := Draw(random, next);
      if j.None? || j.value < 0 || j.value > i {
        return false, next;
      }
      ShuffleMoves(start, random, at, now, i, next);
      Exchange(ids, i, j.value);
      now := Swap(now, i, j.value);
      next, i := next + 1, i - 1;
    }
    ok := true;
    ShuffleEnds(start, random, at, now, i, next);
  }

  // ---------- Plans ----------

  /** A plan for a manifest: a permutation of its questions, each with a permutation
      of that question's options. */
  ghost predicate PlanFits(manifest: Manifest, version: Id, plan: Plan) {
    && plan.contentVersion == version
    && 4 <= |plan.questionOrder| <= 8
    && Distinct(plan.questionOrder)
    && (forall qid {:trigger qid in plan.questionOrder} :: qid in plan.questionOrder <==> qid in manifest)
    && (forall qid :: qid in plan.optionOrders <==> qid in manifest)
    && (forall qid :: qid in manifest ==>
          Distinct(manifest[qid]) && Permutes(plan.optionOrders[qid], manifest[qid]))
  }

  function OptionIds(q: Quiz, id: Id): seq<Id> {
    var g := Lookup(q, id);
    if g.Some? then Ids(g.value.question.options) else []
  }

  function ManifestOf(q: Quiz): Manifest {
    map id | id in QuestionIds(q) :: OptionIds(q, id)
  }

  function Members<T(==)>(s: seq<T>): set<T> { set x | x in s }

  lemma {:induction false} DistinctSize<T>(s: seq<T>)
    ensures |Members(s)| <= |s|
    ensures Distinct(s) <==> |Members(s)| == |s|
    decreases |s|
  {
    if s == [] {
    } else {
      var last := |s| - 1;
      var init := s[..last];
      DistinctSize(init);
      assert s == init + [s[last]];
      assert Members(s) == Members(init) + {s[last]};
      if s[last] in init {
        assert Members(s) == Members(init);
        var k :| 0 <= k < |init| && init[k] == s[last];
        assert s[k] == s[last];
      } else {
        assert forall i :: 0 <= i < last ==> s[i] == init[i] != s[last];
        assert Distinct(s) <==> Distinct(init) by {
          if Distinct(s) {
            assert forall i, j :: 0 <= i < j < last ==> init[i] == s[i] && init[j] == s[j];
          }
        }
      }
    }
  }

  lemma {:induction false} DistinctCounts<T>(s: seq<T>)
    requires Distinct(s)
    ensures multiset(s) == multiset(Members(s))
    decreases |s|
  {
    if s != [] {
      var last := |s| - 1;
      DistinctCounts(s[..last]);
      assert s == s[..last] + [s[last]];
      assert Members(s) == Members(s[..last]) + {s[last]};
    } else {
      assert Members(s) == {};
    }
  }

  lemma PermutesMembers<T>(a: seq<T>, b: seq<T>)
    requires Permutes(a, b)
    ensures |a| == |b|
    ensures forall x :: x in a <==> x in b
    ensures Members(a) == Members(b)
  {
    assert |multiset(a)| == |a| && |multiset(b)| == |b|;
    assert forall x :: x in a <==> x in multiset(a);
    assert forall x :: x in b <==> x in multiset(b);
  }

  /** Pigeonhole: striking `order` off `full` one by one succeeds exactly when both
      are distinct and one permutes the other. */
  lemma StruckOff<T>(order: seq<T>, full: seq<T>)
    requires |order| == |full| && Distinct(order)
    requires forall x :: x in order ==> x in full
    ensures Distinct(full) && Permutes(order, full)
  {
    DistinctSize(order);
    DistinctSize(full);
    assert Members(order) <= Members(full);
    SubsetSize(Members(order), Members(full));
    DistinctCounts(order);
    DistinctCounts(full);
  }

  lemma SubsetSize<T>(a: set<T>, b: set<T>)
    requires a <= b
    ensures |a| <= |b|
    ensures |a| == |b| ==> a == b
  {
    assert b == a + (b - a);
  }

  lemma DistinctPermutes<T>(a: seq<T>, b: seq<T>)
    requires Permutes(a, b) && Distinct(b)
    ensures Distinct(a)
  {
    PermutesMembers(a, b);
    DistinctSize(a);
    DistinctSize(b);
  }

  /** A fitting plan names every question and nothing else, so it is as long as the manifest. */
  lemma FittingLength(manifest: Manifest, version: Id, plan: Plan)
    requires PlanFits(manifest, version, plan)
    ensures |plan.questionOrder| == |manifest| == |plan.optionOrders|
    ensures Members(plan.questionOrder) == manifest.Keys
    ensures forall qid :: qid in manifest ==>
      |plan.optionOrders[qid]| == |manifest[qid]| && Distinct(plan.optionOrders[qid])
  {
    DistinctSize(plan.questionOrder);
    assert Members(plan.questionOrder) == manifest.Keys;
    assert |manifest.Keys| == |manifest|;
    assert plan.optionOrders.Keys == manifest.Keys && |plan.optionOrders.Keys| == |plan.optionOrders|;
    forall qid | qid in manifest
      ensures |plan.optionOrders[qid]| == |manifest[qid]| && Distinct(plan.optionOrders[qid])
    {
      PermutesMembers(plan.optionOrders[qid], manifest[qid]);
      DistinctPermutes(plan.optionOrders[qid], manifest[qid]);
    }
  }

  lemma NotStruck(order: seq<Id>, full: seq<Id>, i: nat)
    requires i < |order| && (order[i] !in full || order[i] in order[..i])
    ensures !(Distinct(full) && Permutes(order, full))
  {
    assert order[i] in order;
    assert order[i] in order[..i] ==> exists k :: 0 <= k < i && order[k] == order[i];
    if Distinct(full) && Permutes(order, full) {
      PermutesMembers(order, full);
      DistinctPermutes(order, full);
    }
  }

  /** The inner loop both validators share: fill a set from `full`, then strike off
      every member of `order`. */
  method StrikesOff(order: seq<Id>, full: seq<Id>) returns (ok: bool)
    requires |order| == |full|
    ensures ok <==> Distinct(full) && Permutes(order, full)
  {
    var allowed: set<Id> := {};
    for i := 0 to |full|
      invariant allowed == Members(full[..i])
    {
      allowed := allowed + {full[i]};
    }
    assert full[..|full|] == full;
    for i := 0 to |order|
      invariant allowed == Members(full) - Members(order[..i])
      invariant Distinct(order[..i])
      invariant forall x :: x in order[..i] ==> x in full
    {
      if order[i] !in allowed {
        NotStruck(order, full, i);
        return false;
      }
      assert order[..i + 1] == order[..i] + [order[i]];
      allowed := allowed - {order[i]};
    }
    assert order[..|order|] == order;
    StruckOff(order, full);
    ok := true;
  }

  /** A known question whose options are in line. */
  ghost predicate QuestionFits(manifest: Manifest, plan: Plan, qid: Id) {
    && qid in manifest && qid in plan.optionOrders
    && Distinct(manifest[qid]) && Permutes(plan.optionOrders[qid], manifest[qid])
  }

  /** Both validators' loop invariant: the first i questions are different and fit. */
  ghost predicate FitsUpTo(manifest: Manifest, plan: Plan, i: nat, seen: set<Id>) {
    && i <= |plan.questionOrder|
    && seen == Members(plan.questionOrder[..i]) && |seen| == i
    && forall qid :: qid in seen ==> QuestionFits(manifest, plan, qid)
  }

  lemma FitsOneMore(manifest: Manifest, plan: Plan, i: nat, seen: set<Id>)
    requires FitsUpTo(manifest, plan, i, seen) && i < |plan.questionOrder|
    requires plan.questionOrder[i] !in seen && QuestionFits(manifest, plan, plan.questionOrder[i])
    ensures FitsUpTo(manifest, plan, i + 1, seen + {plan.questionOrder[i]})
  {
  }

  /** A plan with a repeated or foreign question, or with options out of line, does not fit. */
  lemma Misfit(manifest: Manifest, version: Id, plan: Plan, i: nat, seen: set<Id>)
    requires FitsUpTo(manifest, plan, i, seen) && i < |plan.questionOrder|
    requires plan.questionOrder[i] in seen || !QuestionFits(manifest, plan, plan.questionOrder[i])
    ensures !PlanFits(manifest, version, plan)
  {
    var qid := plan.questionOrder[i];
    assert qid in plan.questionOrder;
    assert qid in seen ==> exists k :: 0 <= k < i && plan.questionOrder[k] == qid;
    if PlanFits(manifest, version, plan) {
      FittingLength(manifest, version, plan);
    }
  }

  lemma UnlikeLengths(manifest: Manifest, plan: Plan, qid: Id)
    requires qid in manifest && qid in plan.optionOrders && |plan.optionOrders[qid]| != |manifest[qid]|
    ensures !QuestionFits(manifest, plan, qid)
  {
    if QuestionFits(manifest, plan, qid) {
      SameLength(plan.optionOrders[qid], manifest[qid]);
    }
  }

  lemma WrongSize(manifest: Manifest, version: Id, plan: Plan)
    requires |manifest| < 4 || |manifest| > 8 || |plan.questionOrder| != |manifest| || |plan.optionOrders| != |manifest|
    ensures !PlanFits(manifest, version, plan)
  {
    if PlanFits(manifest, version, plan) {
      FittingLength(manifest, version, plan);
    }
  }

  lemma AllFit(manifest: Manifest, version: Id, plan: Plan, seen: set<Id>)
    requires 4 <= |manifest| <= 8 && plan.contentVersion == version
    requires |plan.questionOrder| == |manifest| == |plan.optionOrders|
    requires FitsUpTo(manifest, plan, |plan.questionOrder|, seen)
    ensures PlanFits(manifest, version, plan)
  {
    assert plan.questionOrder[..|plan.questionOrder|] == plan.questionOrder;
    DistinctSize(plan.questionOrder);
    assert |manifest.Keys| == |manifest| && |plan.optionOrders.Keys| == |plan.optionOrders|;
    SubsetSize(seen, manifest.Keys);
    SubsetSize(seen, plan.optionOrders.Keys);
    assert forall qid :: qid in plan.questionOrder <==> qid in seen;
  }

  /** validatePlan of transition.lua, on the stored manifest. */
  method ValidatePlan(manifest: Manifest, version: Id, plan: Plan) returns (ok: bool)
    ensures ok <==> PlanFits(manifest, version, plan)
  {
    var total := |manifest|;
    if total < 4 || total > 8 {
      WrongSize(manifest, version, plan);
      return false;
    }
    if plan.contentVersion != version {
      return false;
    }
    if |plan.questionOrder| != total || |plan.optionOrders| != total {
      WrongSize(manifest, version, plan);
      return false;
    }
    var seen: set<Id> := {};
    for i := 0 to |plan.questionOrder|
      invariant FitsUpTo(manifest, plan, i, seen)
    {
      var qid := plan.questionOrder[i];
      if qid in seen || qid !in manifest || qid !in plan.optionOrders {
        Misfit(manifest, version, plan, i, seen);
        return false;
      }
      if |plan.optionOrders[qid]| != |manifest[qid]| {
        UnlikeLengths(manifest, plan, qid);
        Misfit(manifest, version, plan, i, seen);
        return false;
      }
      var fits := StrikesOff(plan.optionOrders[qid], manifest[qid]);
      if !fits {
        Misfit(manifest, version, plan, i, seen);
        return false;
      }
      FitsOneMore(manifest, plan, i, seen);
      seen := seen + {qid};
    }
    AllFit(manifest, version, plan, seen);
    ok := true;
  }

  lemma ManifestEntry(q: Quiz, qid: Id)
    requires LiveQuiz(q)
    ensures qid in ManifestOf(q) <==> Lookup(q, qid).Some?
    ensures qid in ManifestOf(q) ==>
      && ManifestOf(q)[qid] == Ids(Lookup(q, qid).value.question.options)
      && |ManifestOf(q)[qid]| == 4 && Distinct(ManifestOf(q)[qid])
  {
    LookupKnown(q, qid);
    if qid in ManifestOf(q) {
      LookupValid(q, qid);
    }
  }

  lemma ManifestCount(q: Quiz)
    requires LiveQuiz(q)
    ensures |ManifestOf(q)| == |q.questions|
    ensures ManifestOf(q).Keys == Members(QuestionIds(q))
  {
    DistinctSize(QuestionIds(q));
    assert Members(QuestionIds(q)) == ManifestOf(q).Keys;
    assert |ManifestOf(q).Keys| == |ManifestOf(q)|;
  }

  /** One round of Validate's loop, for a question not seen before. */
  method CheckQuestion(q: Quiz, plan: Plan, qid: Id) returns (ok: bool)
    requires LiveQuiz(q)
    ensures ok <==> QuestionFits(ManifestOf(q), plan, qid)
  {
    ManifestEntry(q, qid);
    var question := Lookup(q, qid);
    if question.None? {
      return false;
    }
    // A missing entry of a Go map reads as the empty slice.
    var order := if qid in plan.optionOrders then plan.optionOrders[qid] else [];
    if |order| != |question.value.question.options| {
      if qid in plan.optionOrders {
        UnlikeLengths(ManifestOf(q), plan, qid);
      }
      return false;
    }
    ok := StrikesOff(order, Ids(question.value.question.options));
  }

  /** AttemptPlan.Validate: it reads the quiz where the script reads the manifest, and
      on a served quiz it accepts exactly the plans the script accepts. */
  method Validate(q: Quiz, plan: Plan) returns (ok: bool)
    requires LiveQuiz(q)
    ensures ok <==> PlanFits(ManifestOf(q), q.contentVersion, plan)
  {
    ghost var manifest := ManifestOf(q);
    ManifestCount(q);
    if plan.contentVersion != q.contentVersion {
      return false;
    }
    if |plan.questionOrder| != |q.questions| || |plan.optionOrders| != |q.questions| {
      WrongSize(manifest, q.contentVersion, plan);
      return false;
    }
    var seen: set<Id> := {};
    for i := 0 to |plan.questionOrder|
      invariant FitsUpTo(manifest, plan, i, seen)
    {
      var qid := plan.questionOrder[i];
      var sound := CheckQuestion(q, plan, qid);
      if !sound || qid in seen {
        Misfit(manifest, q.contentVersion, plan, i, seen);
        return false;
      }
      FitsOneMore(manifest, plan, i, seen);
      seen := seen + {qid};
    }
    AllFit(manifest, q.contentVersion, plan, seen);
    ok := true;
  }

  function Collected(questions: seq<Graded>): Domain.Manifest {
    if questions == [] then map[]
    else
      var last := questions[|questions| - 1].question;
      Collected(questions[..|questions| - 1])[last.id := Ids(last.options)]
  }

  lemma {:induction false} CollectedKeys(questions: seq<Graded>)
    ensures forall id :: id in Collected(questions) <==>
      exists k :: 0 <= k < |questions| && questions[k].question.id == id
    decreases |questions|
  {
    if questions != [] {
      var last := |questions| - 1;
      CollectedKeys(questions[..last]);
      forall id
        ensures id in Collected(questions) <==> exists k :: 0 <= k < |questions| && questions[k].question.id == id
      {
        if id in Collected(questions[..last]) {
          var k :| 0 <= k < last && questions[..last][k].question.id == id;
          assert questions[k].question.id == id;
        }
        if k :| 0 <= k < |questions| && questions[k].question.id == id {
          assert k < last ==> questions[..last][k].question.id == id;
        }
      }
    }
  }

  lemma {:induction false} CollectedAt(questions: seq<Graded>, k: nat)
    requires k < |questions|
    requires forall i, j :: 0 <= i < j < |questions| ==> questions[i].question.id != questions[j].question.id
    ensures questions[k].question.id in Collected(questions)
    ensures Collected(questions)[questions[k].question.id] == Ids(questions[k].question.options)
    decreases |questions|
  {
    if k < |questions| - 1 {
      CollectedAt(questions[..|questions| - 1], k);
    }
  }

  lemma DistinctQuestions(q: Quiz)
    requires LiveQuiz(q)
    ensures forall i, j :: 0 <= i < j < |q.questions| ==> q.questions[i].question.id != q.questions[j].question.id
  {
    forall i, j | 0 <= i < j < |q.questions|
      ensures q.questions[i].question.id != q.questions[j].question.id
    {
      assert QuestionIds(q)[i] != QuestionIds(q)[j];
    }
  }

  lemma CollectedEntry(q: Quiz, id: Id)
    requires LiveQuiz(q)
    ensures id in Collected(q.questions) <==> id in ManifestOf(q)
    ensures id in ManifestOf(q) ==> Collected(q.questions)[id] == ManifestOf(q)[id]
  {
    CollectedKeys(q.questions);
    assert forall k :: 0 <= k < |q.questions| ==> QuestionIds(q)[k] == q.questions[k].question.id;
    if id in QuestionIds(q) {
      var k :| 0 <= k < |q.questions| && QuestionIds(q)[k] == id;
      DistinctQuestions(q);
      CollectedAt(q.questions, k);
      LookupAt(q, k);
    }
  }

  lemma CollectedIsManifest(q: Quiz)
    requires LiveQuiz(q)
    ensures Collected(q.questions) == ManifestOf(q)
  {
    forall id
      ensures id in Collected(q.questions) <==> id in ManifestOf(q)
      ensures id in ManifestOf(q) ==> Collected(q.questions)[id] == ManifestOf(q)[id]
    {
      CollectedEntry(q, id);
    }
  }

  /** Inner loop of Manifest: Go appends to the slice stored under the question's id. */
  method AppendOptions(sofar: Domain.Manifest, v: Question) returns (m: Domain.Manifest)
    requires v.id !in sofar && v.options != []
    ensures m == sofar[v.id := Ids(v.options)]
  {
    m := sofar;
    for j := 0 to |v.options|
      invariant m == if j == 0 then sofar else sofar[v.id := Ids(v.options)[..j]]
    {
      var slice := if v.id in m then m[v.id] else [];
      assert Ids(v.options)[..j + 1] == Ids(v.options)[..j] + [v.options[j].id];
      m := m[v.id := slice + [v.options[j].id]];
    }
    assert Ids(v.options)[..|v.options|] == Ids(v.options);
  }

  /** store.Manifest. */
  method Manifest(q: Quiz) returns (m: Domain.Manifest)
    requires LiveQuiz(q)
    ensures m == ManifestOf(q)
  {
    m := map[];
    for i := 0 to |q.questions|
      invariant m == Collected(q.questions[..i])
    {
      assert ValidGraded(q.questions[i]);
      assert q.questions[..i + 1][..i] == q.questions[..i];
      DistinctQuestions(q);
      CollectedKeys(q.questions[..i]);
      m := AppendOptions(m, q.questions[i].question);
    }
    assert q.questions[..|q.questions|] == q.questions;
    CollectedIsManifest(q);
  }

  method DrawOptions(question: Question, random: Source, at: nat) returns (ok: bool, order: seq<Id>, next: nat)
    requires |question.options| == 4
    ensures ok <==> Draws(random, at, 4).Some?
    ensures ok ==> order == Shuffled(Ids(question.options), Draws(random, at, 4).value)
    ensures ok ==> Permutes(order, Ids(question.options)) && next == at + 3
  {
    var ids := new Id[|question.options|](i requires 0 <= i < |question.options| => question.options[i].id);
    assert ids[..] == Ids(question.options);
    ok, next := Shuffle(ids, random, at);
    order := ids[..];
  }

  /** Three draws for the options of each question, then those for the questions. */
  ghost predicate CanDraw(q: Quiz, random: Source) {
    && (forall k :: 0 <= k < |q.questions| ==> OptionDraws(random, k).Some?)
    && Draws(random, 3 * |q.questions|, |q.questions|).Some?
  }

  function OptionDraws(random: Source, k: nat): (r: Option<seq<int>>)
    ensures r.Some? ==> Usable(r.value, 4)
  {
    Draws(random, 3 * k, 4)
  }

  /** The options of question k are in the order its draws give. */
  ghost predicate OptionsDrawn(q: Quiz, random: Source, orders: map<Id, seq<Id>>, k: nat)
    requires k < |q.questions|
  {
    var id, options := q.questions[k].question.id, Ids(q.questions[k].question.options);
    && OptionDraws(random, k).Some? && id in orders && |options| == 4
    && orders[id] == Shuffled(options, OptionDraws(random, k).value)
  }

  /** The plan is the one the draws determine. */
  ghost predicate PlanDrawn(q: Quiz, random: Source, plan: Plan) {
    && CanDraw(q, random) && plan.contentVersion == q.contentVersion
    && plan.questionOrder == Shuffled(QuestionIds(q), Draws(random, 3 * |q.questions|, |q.questions|).value)
    && plan.optionOrders.Keys == Members(QuestionIds(q))
    && forall k :: 0 <= k < |q.questions| ==> OptionsDrawn(q, random, plan.optionOrders, k)
  }

  lemma DrawnFits(q: Quiz, plan: Plan)
    requires LiveQuiz(q) && plan.contentVersion == q.contentVersion
    requires Permutes(plan.questionOrder, QuestionIds(q))
    requires plan.optionOrders.Keys == Members(QuestionIds(q))
    requires forall k :: 0 <= k < |q.questions| ==>
      Permutes(plan.optionOrders[QuestionIds(q)[k]], Ids(q.questions[k].question.options))
    ensures PlanFits(ManifestOf(q), q.contentVersion, plan)
  {
    ManifestCount(q);
    PermutesMembers(plan.questionOrder, QuestionIds(q));
    DistinctPermutes(plan.questionOrder, QuestionIds(q));
    forall qid | qid in ManifestOf(q)
      ensures Permutes(plan.optionOrders[qid], ManifestOf(q)[qid])
    {
      var k :| 0 <= k < |q.questions| && QuestionIds(q)[k] == qid;
      LookupAt(q, k);
    }
    forall qid | qid in ManifestOf(q)
      ensures Distinct(ManifestOf(q)[qid])
    {
      ManifestEntry(q, qid);
    }
  }

  lemma DrawnPlanFits(q: Quiz, random: Source, plan: Plan)
    requires LiveQuiz(q) && PlanDrawn(q, random, plan)
    ensures PlanFits(ManifestOf(q), q.contentVersion, plan)
  {
    hide LiveQuiz, Shuffled, Draws, OptionDraws;
    ShuffleKeepsMembers(QuestionIds(q), Draws(random, 3 * |q.questions|, |q.questions|).value);
    forall k | 0 <= k < |q.questions|
      ensures Permutes(plan.optionOrders[QuestionIds(q)[k]], Ids(q.questions[k].question.options))
    {
      assert OptionsDrawn(q, random, plan.optionOrders, k);
      ShuffleKeepsMembers(Ids(q.questions[k].question.options), OptionDraws(random, k).value);
    }
    DrawnFits(q, plan);
  }

  lemma FourOptions(q: Quiz, i: nat)
    requires LiveQuiz(q) && i < |q.questions|
    ensures |q.questions[i].question.options| == 4
    ensures forall k :: 0 <= k < i ==> q.questions[k].question.id != q.questions[i].question.id
  {
    assert ValidGraded(q.questions[i]);
    DistinctQuestions(q);
  }

  lemma AllDrawn(q: Quiz, random: Source, orders: map<Id, seq<Id>>)
    requires forall k :: 0 <= k < |q.questions| ==> OptionsDrawn(q, random, orders, k)
    ensures forall k :: 0 <= k < |q.questions| ==> OptionDraws(random, k).Some?
  {
    forall k | 0 <= k < |q.questions|
      ensures OptionDraws(random, k).Some?
    {
      assert OptionsDrawn(q, random, orders, k);
    }
  }

  /** NewAttemptPlan: it succeeds exactly when every draw does, with the plan the draws
      determine, and its closing Validate never rejects what was drawn. */
  method NewAttemptPlan(q: Quiz, random: Source) returns (plan: Option<Plan>)
    requires LiveQuiz(q)
    ensures plan.Some? <==> CanDraw(q, random)
    ensures plan.Some? ==> PlanDrawn(q, random, plan.value) && PlanFits(ManifestOf(q), q.contentVersion, plan.value)
  {
    hide LiveQuiz, Draws, Shuffled, PlanFits, ManifestOf;
    ghost var all := QuestionIds(q);
    var order: seq<Id> := [];
    var orders: map<Id, seq<Id>> := map[];
    var at := 0;
    var ok := true;
    for i := 0 to |q.questions|
      invariant order == all[..i] && at == 3 * i
      invariant orders.Keys == Members(order)
      invariant forall k :: 0 <= k < i ==> OptionsDrawn(q, random, orders, k)
    {
      var question := q.questions[i].question;
      FourOptions(q, i);
      assert all[..i + 1] == all[..i] + [all[i]];
      order := order + [question.id];
      var ids: seq<Id>;
      ok, ids, at := DrawOptions(question, random, at);
      if !ok {
        assert OptionDraws(random, i).None?;
        return None;
      }
      ghost var before := orders;
      orders := orders[question.id := ids];
      forall k | 0 <= k < i
        ensures OptionsDrawn(q, random, orders, k)
      {
        assert OptionsDrawn(q, random, before, k);
      }
    }
    assert order == all;
    AllDrawn(q, random, orders);
    var row := new Id[|order|](i requires 0 <= i < |order| => order[i]);
    assert row[..] == order;
    ok, at := Shuffle(row, random, at);
    if !ok {
      return None;
    }
    var drawn := Plan(q.contentVersion, row[..], orders);
    DrawnPlanFits(q, random, drawn);
    var valid := Validate(q, drawn);
    plan := if valid then Some(drawn) else None;
  }

  // ---------- Every plan can be drawn ----------

  lemma {:induction false} DrawsAre(random: Source, at: nat, n: nat, js: seq<int>)
    requires Usable(js, n) && at + |js| <= |random|
    requires forall k :: 0 <= k < |js| ==> random[at + k] == Some(js[k])
    ensures Draws(random, at, n) == Some(js)
    decreases n
  {
    if n > 1 {
      DrawsAre(random, at + 1, n - 1, js[1..]);
      assert js == [js[0]] + js[1..];
    }
  }

  lemma {:induction false} OptionChoices(q: Quiz, plan: Plan, n: nat) returns (jss: seq<seq<int>>)
    requires LiveQuiz(q) && PlanFits(ManifestOf(q), q.contentVersion, plan) && n <= |q.questions|
    ensures |jss| == n
    ensures forall k :: 0 <= k < n ==>
      var id, options := q.questions[k].question.id, Ids(q.questions[k].question.options);
      id in plan.optionOrders && |options| == 4 && Usable(jss[k], 4)
        && Shuffled(options, jss[k]) == plan.optionOrders[id]
    decreases n
  {
    hide LiveQuiz, PlanFits, ManifestOf, Shuffled;
    jss := [];
    if n > 0 {
      var front := OptionChoices(q, plan, n - 1);
      var g := q.questions[n - 1];
      LookupAt(q, n - 1);
      FourOptions(q, n - 1);
      ManifestEntry(q, g.question.id);
      PlanOptions(ManifestOf(q), q.contentVersion, plan, g.question.id);
      var js := ShuffleReachesEveryOrder(Ids(g.question.options), plan.optionOrders[g.question.id]);
      jss := front + [js];
    }
  }

  lemma PlanOptions(manifest: Manifest, version: Id, plan: Plan, qid: Id)
    requires PlanFits(manifest, version, plan) && qid in manifest
    ensures qid in plan.optionOrders && Permutes(plan.optionOrders[qid], manifest[qid])
  {
    assert qid in plan.optionOrders.Keys;
  }

  lemma PlanQuestions(q: Quiz, plan: Plan)
    requires LiveQuiz(q) && PlanFits(ManifestOf(q), q.contentVersion, plan)
    ensures Permutes(plan.questionOrder, QuestionIds(q)) && plan.optionOrders.Keys == Members(QuestionIds(q))
    ensures plan.contentVersion == q.contentVersion
  {
    ManifestCount(q);
    DistinctQuestions(q);
    DistinctCounts(plan.questionOrder);
    DistinctCounts(QuestionIds(q));
    assert Members(plan.questionOrder) == ManifestOf(q).Keys;
  }

  /** Every fitting plan comes out of some draws: no order of questions or options is
      out of reach. */
  lemma EveryPlanCanBeDrawn(q: Quiz, plan: Plan) returns (random: Source)
    requires LiveQuiz(q) && PlanFits(ManifestOf(q), q.contentVersion, plan)
    ensures PlanDrawn(q, random, plan)
  {
    hide LiveQuiz, PlanFits, ManifestOf, Shuffled, Draws;
    var n := |q.questions|;
    var jss := OptionChoices(q, plan, n);
    PlanQuestions(q, plan);
    var js := ShuffleReachesEveryOrder(QuestionIds(q), plan.questionOrder);
    random := seq(3 * n + |js|, t requires 0 <= t < 3 * n + |js| =>
      if t < 3 * n then Some(jss[t / 3][t % 3]) else Some(js[t - 3 * n]));
    DrawsAre(random, 3 * n, n, js);
    forall k | 0 <= k < n
      ensures OptionsDrawn(q, random, plan.optionOrders, k)
    {
      forall i | 0 <= i < 3
        ensures random[3 * k + i] == Some(jss[k][i])
      {
      }
      DrawsAre(random, 3 * k, 4, jss[k]);
    }
    AllDrawn(q, random, plan.optionOrders);
  }

  // ---------- Presentation ----------

  /** First option with the given id. */
  function Pick(options: seq<Choice>, id: Id): (c: Option<Choice>)
    ensures c.Some? ==> c.value in options && c.value.id == id
    ensures c.None? ==> forall o :: o in options ==> o.id != id
  {
    if options == [] then None
    else if options[0].id == id then Some(options[0])
    else Pick(options[1..], id)
  }

  method FindOption(options: seq<Choice>, id: Id) returns (c: Option<Choice>)
    ensures c == Pick(options, id)
  {
    var j := 0;
    while j < |options|
      invariant j <= |options|
      invariant Pick(options, id) == Pick(options[j..], id)
    {
      if options[j].id == id {
        return Some(options[j]);
      }
      j := j + 1;
    }
    c := None;
  }

  /** The listed options in the listed order; ids that name no option are passed over. */
  function Ordered(options: seq<Choice>, order: seq<Id>): (r: seq<Choice>)
    ensures forall c :: c in r ==> c in options
  {
    if order == [] then []
    else
      var last := |order| - 1;
      var c := Pick(options, order[last]);
      Ordered(options, order[..last]) + (if c.Some? then [c.value] else [])
  }

  lemma {:induction false} OrderedIds(options: seq<Choice>, order: seq<Id>)
    requires forall id :: id in order ==> id in Ids(options)
    ensures Ids(Ordered(options, order)) == order
    decreases |order|
  {
    if order != [] {
      var last := |order| - 1;
      assert order == order[..last] + [order[last]];
      assert order[last] in order;
      var k :| 0 <= k < |options| && Ids(options)[k] == order[last];
      assert options[k] in options;
      OrderedIds(options, order[..last]);
      assert Ids(Ordered(options, order)) == Ids(Ordered(options, order[..last])) + [order[last]];
    }
  }

  lemma OptionsFit(q: Quiz, plan: Plan, qid: Id)
    requires LiveQuiz(q) && PlanFits(ManifestOf(q), q.contentVersion, plan) && qid in ManifestOf(q)
    ensures Lookup(q, qid).Some? && qid in plan.optionOrders
    ensures forall id :: id in plan.optionOrders[qid] <==> id in Ids(Lookup(q, qid).value.question.options)
    ensures Distinct(plan.optionOrders[qid]) && |plan.optionOrders[qid]| == 4
  {
    ManifestEntry(q, qid);
    PermutesMembers(plan.optionOrders[qid], ManifestOf(q)[qid]);
    DistinctPermutes(plan.optionOrders[qid], ManifestOf(q)[qid]);
  }

  /** The question with its options rearranged and without study details: what the
      answer script stores in a receipt. */
  function Rearranged(g: Graded, order: seq<Id>): Question {
    g.question.(options := Ordered(g.question.options, order))
  }

  /** The question a learner is shown. */
  function Presented(g: Graded, order: seq<Id>): Question {
    Rearranged(g, order).(timing := Some(g.study.timing), pronunciation := g.study.publicPronunciation)
  }

  /** Under a fitting plan a question is shown with its own prompt, its own four options,
      each once and in the plan's order, the correct one among them, and its study's
      timing and public pronunciation. */
  lemma PresentedWhole(q: Quiz, plan: Plan, qid: Id)
    requires LiveQuiz(q) && PlanFits(ManifestOf(q), q.contentVersion, plan) && qid in ManifestOf(q)
    ensures Lookup(q, qid).Some? && qid in plan.optionOrders
    ensures
      var g, order := Lookup(q, qid).value, plan.optionOrders[qid];
      && Presented(g, order).id == qid
      && |order| == 4 && Distinct(order)
      && Ids(Presented(g, order).options) == order
      && (forall id :: id in order <==> id in Ids(g.question.options))
      && g.correctOptionId in order
      && (forall c :: c in Presented(g, order).options <==> c in g.question.options)
      && Presented(g, order).prompt == g.question.prompt
      && Presented(g, order).timing == Some(g.study.timing)
      && Presented(g, order).pronunciation == g.study.publicPronunciation
  {
    OptionsFit(q, plan, qid);
    LookupValid(q, qid);
    OrderedIds(Lookup(q, qid).value.question.options, plan.optionOrders[qid]);
    AllOptionsShown(Lookup(q, qid).value.question.options, plan.optionOrders[qid]);
  }

  /** An order that names every option leaves none out. */
  lemma AllOptionsShown(options: seq<Choice>, order: seq<Id>)
    requires Distinct(Ids(options)) && forall id :: id in order <==> id in Ids(options)
    ensures forall c :: c in Ordered(options, order) <==> c in options
  {
    OrderedIds(options, order);
    var shown := Ordered(options, order);
    forall c | c in options
      ensures c in shown
    {
      var k :| 0 <= k < |options| && options[k] == c;
      assert Ids(options)[k] in order;
      var j :| 0 <= j < |order| && order[j] == c.id;
      assert Ids(shown)[j] == shown[j].id == c.id && shown[j] in shown;
      var l :| 0 <= l < |options| && options[l] == shown[j];
      assert Ids(options)[l] == Ids(options)[k];
    }
  }

  /** AttemptPlan.Present. Reading a missing question or option order gives Go's zero value. */
  method Present(q: Quiz, plan: Plan, qid: Id) returns (shown: Question)
    ensures Lookup(q, qid).Some? && qid in plan.optionOrders ==>
      shown == Presented(Lookup(q, qid).value, plan.optionOrders[qid])
  {
    var found := Lookup(q, qid);
    if found.None? {
      return Question(qid, "", [], None, "");
    }
    var g := found.value;
    LookupKnown(q, qid);
    var order := if qid in plan.optionOrders then plan.optionOrders[qid] else [];
    var options: seq<Choice> := [];
    for i := 0 to |order|
      invariant options == Ordered(g.question.options, order[..i])
    {
      var c := FindOption(g.question.options, order[i]);
      assert order[..i + 1][..i] == order[..i];
      if c.Some? {
        options := options + [c.value];
      }
    }
    assert order[..|order|] == order;
    shown := Question(qid, g.question.prompt, options, Some(g.study.timing), g.study.publicPronunciation);
  }

  /** Quiz.Teach: adds study details to a receipt read back from storage. */
  function Teach(q: Quiz, r: Receipt): Receipt {
    var g := Lookup(q, r.questionId);
    if g.None? then r
    else
      r.(vocabulary := Some(g.value.study.vocabulary),
         question := r.question.(timing := Some(g.value.study.timing),
                                 pronunciation := g.value.study.publicPronunciation))
  }

  /** Feedback shows the question exactly as it was asked: teaching a receipt that
      holds the rearranged question gives the presented one and the question's
      vocabulary, changes nothing else, and teaching twice is teaching once. */
  lemma TaughtQuestionIsPresented(q: Quiz, order: seq<Id>, r: Receipt)
    requires Lookup(q, r.questionId).Some?
    requires r.question == Rearranged(Lookup(q, r.questionId).value, order)
    ensures
      var g := Lookup(q, r.questionId).value;
      Teach(q, r) == r.(question := Presented(g, order), vocabulary := Some(g.study.vocabulary))
    ensures Teach(q, Teach(q, r)) == Teach(q, r)
  {
  }
}
