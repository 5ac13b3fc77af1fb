/** The change of scoring policy: a seed that carries the preceding content version
    converts the stored room. */
module RoomUpgrade {
  import opened Domain
  import opened Attempt
  import opened Room
  import opened RoomInvariant
  import opened RoomSteps

  lemma UpgradedSizes(s: State, m: Meta, content: Id)
    ensures |Upgraded(s, m, content).attempts| == |s.attempts|
    ensures Upgraded(s, m, content).attempts.Keys == s.attempts.Keys
  {
    var t := Upgraded(s, m, content);
    assert t.attempts.Keys == s.attempts.Keys;
    assert |t.attempts.Keys| == |t.attempts| && |s.attempts.Keys| == |s.attempts|;
  }

  /** What an upgrade of s looks like: orders, scores, progress, receipts, epoch and
      version are those of s; only plans' content versions and the room's content fields
      are new. */
  ghost predicate Converted(s: State, m: Meta, content: Id, t: State) {
    && t.participants == s.participants && t.scores == s.scores && t.answers == s.answers
    && t.requests == s.requests && t.timers == s.timers
    && t.attempts.Keys == s.attempts.Keys
    && (forall pid :: pid in s.attempts ==>
          t.attempts[pid].questionOrder == s.attempts[pid].questionOrder
          && t.attempts[pid].optionOrders == s.attempts[pid].optionOrders
          && t.attempts[pid].contentVersion == content)
    && t.meta.Some? && t.meta.value.epoch == m.epoch && t.meta.value.version == m.version
    && t.meta.value.capacity == m.capacity && t.meta.value.manifest == m.manifest
    && t.meta.value.content == content && t.meta.value.previousContent == Some(m.content)
  }

  /** All or nothing, for any stored room whatever its shape: either the upgrade's checks
      hold and the room is converted, with play as it was; or nothing is written and the
      caller sees a fault. In particular the checks that the script repeats after the
      writes never fail. */
  lemma UpgradeIsAllOrNothing(s: State, m: Meta, content: Id, cmd: Command, now: int)
    requires s.meta == Some(m) && m.content != content && !cmd.Reset?
    ensures
      var (t, reply) := Step(s, content, cmd, now);
      if cmd.Seed? && cmd.legacy == m.content && UpgradeSound(s, m, cmd.manifest)
      then Converted(s, m, content, t) && reply == Sealed(m.epoch, m.version)
      else t == s && reply == Fault
  {
    hide UpgradePlanSound;
    if cmd.Seed? && cmd.legacy == m.content && UpgradeSound(s, m, cmd.manifest) {
      UpgradedSizes(s, m, content);
    }
  }

  /** Being converted leaves no choice. */
  lemma ConvertedIsUpgraded(s: State, m: Meta, content: Id, t: State)
    requires s.meta == Some(m) && Converted(s, m, content, t)
    ensures t == Upgraded(s, m, content)
  {
    var u := Upgraded(s, m, content);
    assert forall pid :: pid in s.attempts ==> t.attempts[pid] == u.attempts[pid];
    assert t.attempts == u.attempts;
  }

  /** Seeding the converted room again does nothing. */
  lemma SeedingAgainDoesNothing(s: State, m: Meta, content: Id, cmd: Command, now: int, later: int)
    requires s.meta == Some(m) && m.content != content && cmd.Seed?
    requires Step(s, content, cmd, now).1.Sealed?
    ensures
      var t := Step(s, content, cmd, now).0;
      Step(t, content, cmd, later) == (t, Sealed(m.epoch, m.version))
  {
    hide UpgradePlanSound;
    UpgradeIsAllOrNothing(s, m, content, cmd, now);
    ConvertedIsUpgraded(s, m, content, Step(s, content, cmd, now).0);
    UpgradedSizes(s, m, content);
  }

  /** Reasons not to convert a room: other questions than the seed's, numbers out of range, maps
      of different sizes, a clock, or a plan whose participant's figures do not follow their
      answers or are not whole hundreds. */
  ghost predicate Unfit(s: State, m: Meta, manifest: Manifest) {
    || m.manifest != manifest || m.version < 0 || m.version > 1000000 || m.capacity < 1 || m.capacity > 200
    || |s.participants| > m.capacity || |s.participants| != |s.attempts| || |s.participants| != |s.scores|
    || s.timers != map[]
    || exists pid :: pid in s.attempts && UnfitFigures(s, m, pid)
  }

  ghost predicate UnfitFigures(s: State, m: Meta, pid: Id)
    requires pid in s.attempts
  {
    || !PlanFits(m.manifest, m.content, s.attempts[pid]) || pid !in s.participants || pid !in s.scores
    || s.participants[pid].name == ""
    || s.participants[pid].count != AnsweredIn(s.attempts[pid].questionOrder, s.answers.Keys, pid)
    || s.participants[pid].cursor != UpgradeCursor(s.attempts[pid].questionOrder, s.answers.Keys, pid)
    || s.scores[pid] < 0 || s.scores[pid] % 100 != 0 || s.scores[pid] > 100 * s.participants[pid].count
  }

  /** A room is converted exactly by a seed that names its content and finds no reason not to:
      in a room of any shape one wrong figure of one participant keeps everything as it was. */
  lemma ConvertsExactly(s: State, m: Meta, content: Id, cmd: Command, now: int)
    requires s.meta == Some(m) && m.content != content && !cmd.Reset?
    ensures Step(s, content, cmd, now) == (s, Fault) <==>
      !cmd.Seed? || cmd.legacy != m.content || Unfit(s, m, cmd.manifest)
  {
    hide Step, UpgradeCursor, PlanFits, AnsweredIn;
    UpgradeIsAllOrNothing(s, m, content, cmd, now);
    if cmd.Seed? {
      FitExactly(s, m, cmd.manifest);
    }
  }

  lemma FitExactly(s: State, m: Meta, manifest: Manifest)
    ensures UpgradeSound(s, m, manifest) <==> !Unfit(s, m, manifest)
  {
    hide UpgradePlanSound, UnfitFigures;
    forall pid | pid in s.attempts
      ensures UpgradePlanSound(s, m, pid) <==> !UnfitFigures(s, m, pid)
    {
      FiguresFitExactly(s, m, pid);
    }
  }

  lemma FiguresFitExactly(s: State, m: Meta, pid: Id)
    requires pid in s.attempts
    ensures UpgradePlanSound(s, m, pid) <==> !UnfitFigures(s, m, pid)
  {
    if PlanFits(m.manifest, m.content, s.attempts[pid]) {
      FittingLength(m.manifest, m.content, s.attempts[pid]);
    }
  }

  // ---------- Meaning ----------

  lemma PlanConverted(manifest: Manifest, prior: Id, content: Id, plan: Plan)
    requires PlanFits(manifest, prior, plan)
    ensures PlanFits(manifest, content, plan.(contentVersion := content))
  {
  }

  lemma ProgressConverted(m: Meta, s: State, content: Id)
    requires AllProgress(m, s)
    ensures AllProgress(Upgraded(s, m, content).meta.value, Upgraded(s, m, content))
  {
    hide Earned, FirstOpen, AnsweredIn;
    var t := Upgraded(s, m, content);
    forall pid | pid in t.participants
      ensures Progress(t.meta.value, t, pid)
    {
      assert Progress(m, s, pid);
    }
  }

  lemma PlansConverted(q: Quiz, m: Meta, s: State, content: Id)
    requires PlansFit(q, m.content, s)
    ensures PlansFit(q, content, Upgraded(s, m, content))
  {
    hide PlanFits;
    forall pid | pid in s.attempts
      ensures PlanFits(ManifestOf(q), content, s.attempts[pid].(contentVersion := content))
    {
      PlanConverted(ManifestOf(q), m.content, content, s.attempts[pid]);
    }
  }

  lemma GradedConverted(g: Graded, plan: Plan, content: Id, r: Receipt)
    requires GradedWell(g, plan, r)
    ensures GradedWell(g, plan.(contentVersion := content), r)
  {
  }

  lemma ReceiptsConverted(q: Quiz, m: Meta, s: State, content: Id)
    requires Receipts(q, m, s)
    ensures Receipts(q, Upgraded(s, m, content).meta.value, Upgraded(s, m, content))
  {
    hide GradedWell, Earned;
    var t := Upgraded(s, m, content);
    forall f | f in t.answers
      ensures ReceiptFits(q, t.meta.value, t, f)
    {
      assert ReceiptFits(q, m, s, f);
      GradedConverted(Lookup(q, f.1).value, s.attempts[f.0], content, s.answers[f]);
    }
  }

  /** A room that satisfied the invariant under the old content version satisfies it
      under the new one after the upgrade. */
  lemma UpgradeKeepsInv(q: Quiz, m: Meta, s: State, content: Id)
    requires s.meta == Some(m) && Inv(q, m.content, s)
    ensures Inv(q, content, Upgraded(s, m, content))
  {
    hide PlansFit, AllProgress, Receipts, Mirrored, OneVersionEach, Timers;
    UpgradedSizes(s, m, content);
    ProgressConverted(m, s, content);
    PlansConverted(q, m, s, content);
    ReceiptsConverted(q, m, s, content);
    SameRecords(s, Upgraded(s, m, content));
  }

  // ---------- When it succeeds ----------

  ghost predicate WholePoints(s: State) {
    forall pid :: pid in s.scores ==> s.scores[pid] % 100 == 0
  }

  /** Nobody has answered every question of a plan. */
  ghost predicate NobodyFinished(s: State) {
    forall pid :: pid in s.attempts && pid in s.participants ==>
      s.participants[pid].count < |s.attempts[pid].questionOrder|
  }

  /** The upgrade loop compares a member's stored cursor with a value that is 8 for a
      finished plan, so it takes a finished member only in a quiz of 8 questions. */
  lemma MemberUpgrades(q: Quiz, content: Id, m: Meta, s: State, pid: Id)
    requires LiveQuiz(q) && m.manifest == ManifestOf(q)
    requires pid in s.attempts && Progress(m, s, pid) && PointsInSteps(s.answers)
    requires PlanFits(ManifestOf(q), m.content, s.attempts[pid])
    ensures UpgradePlanSound(s, m, pid) <==>
      s.scores[pid] % 100 == 0
      && (|q.questions| == 8 || s.participants[pid].count < |s.attempts[pid].questionOrder|)
  {
    hide PlanFits, LiveQuiz, ManifestOf, Earned;
    var order := s.attempts[pid].questionOrder;
    FittingLength(ManifestOf(q), m.content, s.attempts[pid]);
    ManifestCount(q);
    ManifestRange(q);
    AllAnswered(order, s.answers.Keys, pid);
    EarnedBounds(order, s.answers, pid, m.version);
  }

  /** Exactly when a legal room of the preceding policy can be upgraded: no clocks, whole
      hundreds only, and either 8 questions or no finished member. */
  lemma UpgradeCondition(q: Quiz, m: Meta, s: State)
    requires LiveQuiz(q) && s.meta == Some(m) && Inv(q, m.content, s)
    ensures UpgradeSound(s, m, ManifestOf(q)) <==>
      s.timers == map[] && WholePoints(s) && (|q.questions| == 8 || NobodyFinished(s))
  {
    hide PlanFits, Progress, Receipts, Mirrored, OneVersionEach, Timers, LiveQuiz, UpgradePlanSound;
    VersionBounded(q, m.content, m, s);
    ReceiptsAreSmall(q, m, s);
    forall pid | pid in s.attempts
      ensures UpgradePlanSound(s, m, pid) <==>
        pid in s.scores && pid in s.participants && s.scores[pid] % 100 == 0
        && (|q.questions| == 8 || s.participants[pid].count < |s.attempts[pid].questionOrder|)
    {
      assert pid in s.participants.Keys;
      MemberUpgrades(q, m.content, m, s, pid);
    }
    assert forall pid :: pid in s.scores <==> pid in s.attempts.Keys;
  }
}
