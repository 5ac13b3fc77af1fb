/** What drafts and published definitions keep, whoever edits, approves and publishes. */
module DraftRuns {
  import opened Domain
  import opened Attempt
  import opened Drafts
  import Room
  import RoomInvariant
  import RoomSteps

  function ItemIds(items: seq<Item>): (r: seq<Id>)
    ensures |r| == |items|
  {
    seq(|items|, i requires 0 <= i < |items| => items[i].id)
  }

  /** Every approval is for the content it stands beside. */
  ghost predicate ApprovalsCurrent(items: seq<Item>) {
    forall i :: 0 <= i < |items| && items[i].approval.Some? ==>
      items[i].approval.value.content == items[i].content
  }

  ghost predicate Sound(d: Draft) {
    && 4 <= |d.items| <= 8 && Distinct(ItemIds(d.items)) && ApprovalsCurrent(d.items)
    && d.version == 1 + |d.intents|
    && (d.published ==> Ready(d.items) && d.quizId == Some(QuizIdOf(d.id)) && d.contentVersion.Some?)
  }

  /** A draft as it is created: generated contents under new ids, nothing approved. */
  ghost predicate Fresh(d: Draft) {
    && 4 <= |d.items| <= 8 && Distinct(ItemIds(d.items))
    && (forall i :: 0 <= i < |d.items| ==> d.items[i].approval.None?)
    && d.version == 1 && d.intents == map[] && !d.published
  }

  /** Saves and approvals keep every approval current, the items and their ids. */
  lemma MutateKeepsSound(d: Draft, req: Request)
    requires Sound(d) && Mutate(d, req).Changed?
    ensures Sound(Mutate(d, req).next) && !d.published && !Mutate(d, req).next.published
    ensures ItemIds(Mutate(d, req).next.items) == ItemIds(d.items) && Mutate(d, req).next.id == d.id
    ensures Mutate(d, req).next.version == d.version + 1
  {
    hide Valid, EditsFit;
    var t := Mutate(d, req).next;
    if req.Save? {
      assert ItemIds(t.items) == ItemIds(d.items);
      assert EditsLong(d.items, req.edits) by { EditsHaveLength(d, req); }
    } else {
      assert ItemIds(t.items) == ItemIds(d.items);
    }
  }

  ghost predicate EditsLong(items: seq<Item>, edits: seq<Edit>) {
    |items| == |edits|
  }

  lemma EditsHaveLength(d: Draft, req: Request)
    requires req.Save? && EditsFit(d.items, req.edits)
    ensures EditsLong(d.items, req.edits)
  {
  }

  /** Only a fully approved draft is published, and publishing keeps it sound. */
  lemma PublishingKeepsSound(d: Draft, req: Request, contentVersion: Id)
    requires Sound(d) && req.Publish? && Publishing(d, req, contentVersion).Changed?
    ensures
      var t := Publishing(d, req, contentVersion).next;
      && Sound(t) && t.published && t.items == d.items && t.id == d.id && !d.published
      && Ready(d.items) && t.title == d.title && t.contentVersion == Some(contentVersion)
  {
  }

  // ---------- Reading back what was approved ----------

  lemma {:induction false} DetailsHold(items: seq<Item>, i: nat)
    requires Distinct(ItemIds(items)) && i < |items|
    ensures items[i].id in DetailsOf(items) && DetailsOf(items)[items[i].id] == StudyOf(items[i].content)
    decreases |items|
  {
    var last := |items| - 1;
    assert ItemIds(items[..last]) == ItemIds(items)[..last];
    if i < last {
      DetailsHold(items[..last], i);
      assert ItemIds(items)[i] != ItemIds(items)[last];
    }
  }

  lemma {:induction false} AttachedBack(items: seq<Item>, study: map<Id, Study>)
    requires Ready(items)
    requires forall i :: 0 <= i < |items| ==> items[i].id in study && study[items[i].id] == StudyOf(items[i].content)
    ensures Attached(BareAll(QuestionsOf(items)), study) == Some(QuestionsOf(items))
    decreases |items|
  {
    if items != [] {
      var last := |items| - 1;
      AttachedBack(items[..last], study);
      assert BareAll(QuestionsOf(items))[..last] == BareAll(QuestionsOf(items[..last]));
      assert QuestionsOf(items) == QuestionsOf(items[..last]) + [GradedOf(items[last])];
    }
  }

  /** Study details leave the questions when a definition is stored and come back when it
      is read: reading gives exactly the approved quiz. */
  lemma ReadsBack(d: Draft, contentVersion: Id, contents: map<Id, Definition>)
    requires Sound(d) && Ready(d.items)
    requires QuizIdOf(d.id) in contents && contents[QuizIdOf(d.id)] == DefinitionOf(d, contentVersion)
    ensures Resolve(contents, QuizIdOf(d.id)) == Some(QuizOf(d, contentVersion))
  {
    hide Ready, QuestionsOf, BareAll, Attached, DetailsOf;
    forall i | 0 <= i < |d.items|
      ensures d.items[i].id in DetailsOf(d.items) && DetailsOf(d.items)[d.items[i].id] == StudyOf(d.items[i].content)
    {
      DetailsHold(d.items, i);
    }
    AttachedBack(d.items, DetailsOf(d.items));
  }

  /** What is published can be served: 4 to 8 questions with distinct ids, four distinct
      choices each, one of them correct, and 20 to 40 seconds. */
  lemma PublishedIsLive(d: Draft, contentVersion: Id)
    requires Sound(d) && Ready(d.items)
    ensures LiveQuiz(QuizOf(d, contentVersion))
  {
    var q := QuizOf(d, contentVersion);
    assert QuestionIds(q) == ItemIds(d.items);
    forall i | 0 <= i < |q.questions|
      ensures ValidGraded(q.questions[i])
    {
      GradedIsValid(d.items[i]);
    }
  }

  lemma GradedIsValid(item: Item)
    requires ItemReady(item)
    ensures ValidGraded(GradedOf(item))
  {
    var g := GradedOf(item);
    assert Ids(g.question.options)[item.content.correctIndex] == item.content.correctIndex;
  }

  // ---------- Many callers ----------

  /** Stored drafts and definitions, the rooms opened by publications, and what callers
      have prepared from what they read. */
  datatype World = World(
    drafts: map<Id, Draft>, contents: map<Id, Definition>, rooms: map<Id, Room.State>, prepared: map<Id, Prepared>)

  datatype Prepared =
    | Mutation(before: Draft, next: Draft)
    | Publication(before: Draft, next: Draft, definition: Definition, manifest: Manifest)

  datatype Step =
    | Create(draft: Draft)
    | Expire(id: Id)
    | Prepare(caller: Id, id: Id, req: Request, contentVersion: Id)
    | PutBack(caller: Id, epoch: Id, capacity: int)

  function PreparedFor(d: Draft, req: Request, contentVersion: Id): Option<Prepared> {
    if req.Publish? then
      var v := Publishing(d, req, contentVersion);
      if v.Changed? && Ready(d.items) then
        Some(Publication(d, v.next, DefinitionOf(d, contentVersion), ManifestOf(QuizOf(d, contentVersion))))
      else None
    else
      var v := Mutate(d, req);
      if v.Changed? then Some(Mutation(d, v.next)) else None
  }

  /** The publication script: all of its writes or none. */
  function Published(w: World, p: Prepared, epoch: Id, capacity: int): World
    requires p.Publication?
  {
    var id := p.definition.quiz.id;
    if p.before.id !in w.drafts || w.drafts[p.before.id] != p.before then w
    else if id in w.contents || |w.contents| >= MAX_PUBLISHED || id in w.rooms then w
    else
      w.(contents := w.contents[id := p.definition], drafts := w.drafts[p.before.id := p.next],
         rooms := w.rooms[id := Room.Opened(epoch, p.definition.quiz.contentVersion, capacity, p.manifest)])
  }

  function After(w: World, step: Step): World {
    match step
    case Create(draft) => if draft.id in w.drafts then w else w.(drafts := w.drafts[draft.id := draft])
    case Expire(id) => w.(drafts := w.drafts - {id})
    case Prepare(caller, id, req, contentVersion) =>
      if id !in w.drafts || PreparedFor(w.drafts[id], req, contentVersion).None? then w
      else w.(prepared := w.prepared[caller := PreparedFor(w.drafts[id], req, contentVersion).value])
    case PutBack(caller, epoch, capacity) =>
      if caller !in w.prepared then w
      else
        var p := w.prepared[caller];
        var rest := w.(prepared := w.prepared - {caller});
        match p
        case Mutation(before, next) =>
          if before.id in w.drafts && w.drafts[before.id] == before
          then rest.(drafts := w.drafts[before.id := next])
          else rest
        case Publication(_, _, _, _) => Published(rest, p, epoch, capacity)
  }

  ghost predicate Made(p: Prepared) {
    exists req, contentVersion :: PreparedFor(p.before, req, contentVersion) == Some(p)
  }

  /** A stored definition is that of some fully approved draft, and its room was opened
      for it. */
  ghost predicate FromDraft(definition: Definition, d: Draft, contentVersion: Id) {
    Sound(d) && Ready(d.items) && definition == DefinitionOf(d, contentVersion)
  }

  ghost predicate ContentsSound(contents: map<Id, Definition>) {
    forall id :: id in contents ==>
      exists d, contentVersion :: FromDraft(contents[id], d, contentVersion) && id == QuizIdOf(d.id)
  }

  ghost predicate WorldSound(w: World) {
    && (forall id :: id in w.drafts ==> Sound(w.drafts[id]) && w.drafts[id].id == id)
    && (forall id :: id in w.drafts && w.drafts[id].published ==> Stored(w, w.drafts[id]))
    && ContentsSound(w.contents)
    && |w.contents| <= MAX_PUBLISHED
    && forall caller {:trigger Made(w.prepared[caller])} :: caller in w.prepared ==> Made(w.prepared[caller])
  }

  /** The definition of a published draft is in the repository. */
  ghost predicate Stored(w: World, d: Draft) {
    && d.quizId.Some? && d.contentVersion.Some? && Ready(d.items)
    && d.quizId.value in w.contents && w.contents[d.quizId.value] == DefinitionOf(d, d.contentVersion.value)
  }

  ghost predicate Allowed(step: Step) {
    (step.Create? ==> Fresh(step.draft)) && (step.PutBack? ==> 1 <= step.capacity <= 200)
  }

  lemma FreshIsSound(d: Draft)
    requires Fresh(d)
    ensures Sound(d) && !d.published
  {
  }

  lemma SameDefinition(d: Draft, t: Draft, contentVersion: Id)
    requires Ready(d.items) && t.items == d.items && t.title == d.title && t.id == d.id
    ensures DefinitionOf(t, contentVersion) == DefinitionOf(d, contentVersion)
  {
  }

  lemma MutationKeeps(w: World, caller: Id, before: Draft, next: Draft)
    requires WorldSound(w) && caller in w.prepared && w.prepared[caller] == Mutation(before, next)
    requires before.id in w.drafts && w.drafts[before.id] == before
    ensures WorldSound(w.(prepared := w.prepared - {caller}, drafts := w.drafts[before.id := next]))
    ensures !before.published
  {
    hide Sound, Mutate, ContentsSound, Stored, Made;
    var req := MutationOf(before, next);
    MutateKeepsSound(before, req);
    var t := w.(prepared := w.prepared - {caller}, drafts := w.drafts[before.id := next]);
    StoredStays(w, t);
  }

  lemma MutationOf(before: Draft, next: Draft) returns (req: Request)
    requires Made(Mutation(before, next))
    ensures Mutate(before, req) == Changed(next)
  {
    hide Mutate, Publishing;
    var r, contentVersion :| PreparedFor(before, r, contentVersion) == Some(Mutation(before, next));
    req := r;
  }

  lemma StoredStays(w: World, t: World)
    requires forall id :: id in w.contents ==> id in t.contents && t.contents[id] == w.contents[id]
    ensures forall d :: Stored(w, d) ==> Stored(t, d)
  {
  }

  lemma PublicationOf(p: Prepared) returns (req: Request, contentVersion: Id)
    requires p.Publication? && Made(p)
    ensures req.Publish? && Publishing(p.before, req, contentVersion) == Changed(p.next) && Ready(p.before.items)
    ensures p.definition == DefinitionOf(p.before, contentVersion)
    ensures p.manifest == ManifestOf(QuizOf(p.before, contentVersion))
  {
    hide Mutate, Publishing, DefinitionOf, ManifestOf;
    req, contentVersion :| PreparedFor(p.before, req, contentVersion) == Some(p);
  }

  lemma DefinitionId(d: Draft, contentVersion: Id)
    requires Ready(d.items)
    ensures DefinitionOf(d, contentVersion).quiz.id == QuizIdOf(d.id)
    ensures DefinitionOf(d, contentVersion).quiz.contentVersion == contentVersion
  {
  }

  lemma PublicationKeeps(w: World, p: Prepared, epoch: Id, capacity: int)
    requires WorldSound(w) && p.Publication? && Made(p) && 1 <= capacity <= 200
    ensures WorldSound(Published(w, p, epoch, capacity))
  {
    hide Sound, Publishing, Made, DefinitionOf, Ready;
    var id := p.definition.quiz.id;
    var t := Published(w, p, epoch, capacity);
    if t != w {
      var req, contentVersion := PublicationOf(p);
      DefinitionId(p.before, contentVersion);
      PublishingKeepsSound(p.before, req, contentVersion);
      SameDefinition(p.before, p.next, contentVersion);
      PublishedIds(p.next);
      StoredStays(w, t);
      assert Stored(t, p.next);
      assert FromDraft(p.definition, p.before, contentVersion);
      ContentsGrow(w.contents, id, p.definition, p.before, contentVersion);
    }
  }

  lemma PublishedIds(d: Draft)
    requires Sound(d) && d.published
    ensures d.quizId == Some(QuizIdOf(d.id)) && Ready(d.items)
  {
    hide Ready;
  }

  lemma ContentsGrow(contents: map<Id, Definition>, id: Id, definition: Definition, d: Draft, contentVersion: Id)
    requires ContentsSound(contents) && id !in contents && FromDraft(definition, d, contentVersion)
      && id == QuizIdOf(d.id)
    ensures ContentsSound(contents[id := definition]) && |contents[id := definition]| == |contents| + 1
  {
    hide FromDraft;
    var more := contents[id := definition];
    assert more.Keys == contents.Keys + {id};
    assert |more.Keys| == |more| && |contents.Keys| == |contents|;
  }

  lemma PreparedIsMade(d: Draft, req: Request, contentVersion: Id)
    requires PreparedFor(d, req, contentVersion).Some?
    ensures PreparedFor(d, req, contentVersion).value.before == d
    ensures Made(PreparedFor(d, req, contentVersion).value)
  {
    hide Mutate, Publishing, DefinitionOf, ManifestOf, QuizOf;
    var p := PreparedFor(d, req, contentVersion).value;
    assert p.before == d;
    assert PreparedFor(p.before, req, contentVersion) == Some(p);
  }

  lemma CreateKeeps(w: World, draft: Draft)
    requires WorldSound(w) && Fresh(draft)
    ensures WorldSound(After(w, Create(draft)))
  {
    hide Sound, Stored, ContentsSound, Made, Fresh;
    FreshIsSound(draft);
    StoredStays(w, After(w, Create(draft)));
  }

  lemma ExpireKeeps(w: World, id: Id)
    requires WorldSound(w)
    ensures WorldSound(After(w, Expire(id)))
  {
    hide Sound, Stored, ContentsSound, Made;
    StoredStays(w, After(w, Expire(id)));
  }

  lemma PrepareKeeps(w: World, step: Step)
    requires WorldSound(w) && step.Prepare?
    ensures WorldSound(After(w, step)) && After(w, step).contents == w.contents
  {
    hide Sound, Stored, ContentsSound, Made, PreparedFor;
    if step.id in w.drafts && PreparedFor(w.drafts[step.id], step.req, step.contentVersion).Some? {
      PreparedIsMade(w.drafts[step.id], step.req, step.contentVersion);
    }
    StoredStays(w, After(w, step));
  }

  lemma PutBackKeeps(w: World, caller: Id, epoch: Id, capacity: int)
    requires WorldSound(w) && 1 <= capacity <= 200
    ensures WorldSound(After(w, PutBack(caller, epoch, capacity)))
  {
    hide Sound, Stored, ContentsSound, Made, Published;
    if caller in w.prepared {
      var rest := w.(prepared := w.prepared - {caller});
      StoredStays(w, rest);
      match w.prepared[caller] {
        case Mutation(before, next) =>
          if before.id in w.drafts && w.drafts[before.id] == before {
            MutationKeeps(w, caller, before, next);
          }
        case Publication(_, _, _, _) => PublicationKeeps(rest, w.prepared[caller], epoch, capacity);
      }
    }
  }

  lemma StepKeepsWorld(w: World, step: Step)
    requires WorldSound(w) && Allowed(step)
    ensures WorldSound(After(w, step))
    ensures forall id :: id in w.contents ==>
      id in After(w, step).contents && After(w, step).contents[id] == w.contents[id]
  {
    hide WorldSound, PreparedFor, Published, Fresh;
    match step {
      case Create(draft) => CreateKeeps(w, draft);
      case Expire(id) => ExpireKeeps(w, id);
      case Prepare(_, _, _, _) => PrepareKeeps(w, step);
      case PutBack(caller, epoch, capacity) =>
        PutBackKeeps(w, caller, epoch, capacity);
        if caller in w.prepared && w.prepared[caller].Publication? {
          PublishedAdds(w.(prepared := w.prepared - {caller}), w.prepared[caller], epoch, capacity);
        }
    }
  }

  lemma PublishedAdds(w: World, p: Prepared, epoch: Id, capacity: int)
    requires p.Publication?
    ensures forall id :: id in w.contents ==>
      id in Published(w, p, epoch, capacity).contents && Published(w, p, epoch, capacity).contents[id] == w.contents[id]
  {
  }

  /** No caller changes a published draft, however old the draft it read. */
  lemma PublishedStays(w: World, step: Step, id: Id)
    requires WorldSound(w) && id in w.drafts && w.drafts[id].published
    ensures id in After(w, step).drafts ==> After(w, step).drafts[id] == w.drafts[id]
  {
    hide Sound, ContentsSound, Stored, Mutate, Publishing, Made, DefinitionOf;
    if step.PutBack? && step.caller in w.prepared {
      var p := w.prepared[step.caller];
      if p.before == w.drafts[id] {
        if p.Mutation? {
          var req := MutationOf(p.before, p.next);
          NotPublished(p.before, req);
        } else {
          var req, contentVersion := PublicationOf(p);
          NotPublishedTwice(p.before, req, contentVersion);
        }
      }
    }
  }

  lemma NotPublished(d: Draft, req: Request)
    requires Mutate(d, req).Changed?
    ensures !d.published
  {
  }

  lemma NotPublishedTwice(d: Draft, req: Request, contentVersion: Id)
    requires req.Publish? && Publishing(d, req, contentVersion).Changed?
    ensures !d.published
  {
    hide Ready;
  }

  // ---------- Runs ----------

  ghost predicate AllAllowed(steps: seq<Step>) {
    forall s {:trigger Allowed(s)} :: s in steps ==> Allowed(s)
  }

  function Run(w: World, steps: seq<Step>): World
    decreases |steps|
  {
    if steps == [] then w else Run(After(w, steps[0]), steps[1..])
  }

  /** In every run with any number of callers: drafts stay sound, at most 20 definitions
      are published, and a definition once published is there unchanged for good. */
  lemma {:induction false} RunKeepsWorld(w: World, steps: seq<Step>, id: Id)
    requires WorldSound(w) && AllAllowed(steps)
    ensures WorldSound(Run(w, steps))
    ensures id in w.contents ==> id in Run(w, steps).contents && Run(w, steps).contents[id] == w.contents[id]
    decreases |steps|
  {
    hide WorldSound, Allowed, After;
    if steps != [] {
      assert steps[0] in steps;
      assert forall s :: s in steps[1..] ==> s in steps;
      StepKeepsWorld(w, steps[0]);
      RunKeepsWorld(After(w, steps[0]), steps[1..], id);
    }
  }

  /** A later state of a draft: the same items, a version that did not drop, and no change
      at all once it is published. */
  ghost predicate Follows(d: Draft, e: Draft) {
    && ItemIds(e.items) == ItemIds(d.items) && e.id == d.id && d.version <= e.version
    && (d.published ==> e == d)
  }

  lemma PutBackFollows(w: World, step: Step, id: Id)
    requires WorldSound(w) && id in w.drafts && step.PutBack?
    ensures id in After(w, step).drafts && Follows(w.drafts[id], After(w, step).drafts[id])
  {
    hide Sound, ContentsSound, Stored, Mutate, Publishing, Made, DefinitionOf;
    if step.caller in w.prepared {
      var p := w.prepared[step.caller];
      if p.before == w.drafts[id] {
        if p.Mutation? {
          var req := MutationOf(p.before, p.next);
          MutateKeepsSound(p.before, req);
        } else {
          var req, contentVersion := PublicationOf(p);
          PublishingKeepsSound(p.before, req, contentVersion);
          PublishingStamps(p.before, req, contentVersion);
        }
      }
    }
  }

  lemma PublishingStamps(d: Draft, req: Request, contentVersion: Id)
    requires req.Publish? && Publishing(d, req, contentVersion).Changed?
    ensures Publishing(d, req, contentVersion).next.version == d.version + 1
  {
    hide Ready;
  }

  lemma StepFollows(w: World, step: Step, id: Id)
    requires WorldSound(w) && id in w.drafts && step != Expire(id)
    ensures id in After(w, step).drafts && Follows(w.drafts[id], After(w, step).drafts[id])
  {
    hide WorldSound, PreparedFor, Published;
    if step.PutBack? {
      PutBackFollows(w, step, id);
    }
  }

  /** Between any two moments of a run in which a draft did not expire, whoever saved,
      approved and published: its item ids and their number are the same, its version did
      not drop, and if it was published at the first it is unchanged at the second. */
  lemma {:induction false} DraftFollows(w: World, steps: seq<Step>, id: Id)
    requires WorldSound(w) && AllAllowed(steps) && id in w.drafts && Expire(id) !in steps
    ensures id in Run(w, steps).drafts && Follows(w.drafts[id], Run(w, steps).drafts[id])
    decreases |steps|
  {
    hide WorldSound, Allowed, After;
    if steps != [] {
      assert steps[0] in steps;
      assert forall s :: s in steps[1..] ==> s in steps;
      StepKeepsWorld(w, steps[0]);
      StepFollows(w, steps[0], id);
      DraftFollows(After(w, steps[0]), steps[1..], id);
    }
  }

  /** Whenever a draft shows as published, its quiz resolves, to exactly the quiz of its
      approved items, and that quiz can be served. */
  lemma PublishedResolves(w: World, steps: seq<Step>, id: Id)
    requires WorldSound(w) && AllAllowed(steps) && id in Run(w, steps).drafts && Run(w, steps).drafts[id].published
    ensures
      var t := Run(w, steps);
      var d := t.drafts[id];
      && Ready(d.items) && d.quizId.Some? && d.contentVersion.Some?
      && Resolve(t.contents, d.quizId.value) == Some(QuizOf(d, d.contentVersion.value))
      && LiveQuiz(QuizOf(d, d.contentVersion.value))
  {
    hide AllAllowed, Run, ContentsSound, Made, Ready, LiveQuiz, QuizOf, DefinitionOf, Resolve, Sound;
    RunKeepsWorld(w, steps, 0);
    var t := Run(w, steps);
    var d := t.drafts[id];
    PublishedIds(d);
    ReadsBack(d, d.contentVersion.value, t.contents);
    PublishedIsLive(d, d.contentVersion.value);
  }

  /** Everything in the repository resolves to a quiz that can be served. */
  lemma EverythingResolves(w: World, steps: seq<Step>, id: Id)
    requires WorldSound(w) && AllAllowed(steps) && id in Run(w, steps).contents
    ensures Resolve(Run(w, steps).contents, id).Some? && LiveQuiz(Resolve(Run(w, steps).contents, id).value)
  {
    hide AllAllowed, Run, Made, Stored, Ready, LiveQuiz, QuizOf, DefinitionOf, Resolve, Sound;
    RunKeepsWorld(w, steps, id);
    var t := Run(w, steps);
    var d, contentVersion :| FromDraft(t.contents[id], d, contentVersion) && id == QuizIdOf(d.id);
    ReadsBack(d, contentVersion, t.contents);
    PublishedIsLive(d, contentVersion);
  }

  /** The room a publication opens satisfies the room invariant for the published quiz. */
  lemma PublicationOpensLegalRoom(w: World, p: Prepared, epoch: Id, capacity: int)
    requires WorldSound(w) && p.Publication? && Made(p) && 1 <= capacity <= 200
    requires Published(w, p, epoch, capacity) != w
    ensures
      var t, id := Published(w, p, epoch, capacity), p.definition.quiz.id;
      && id in t.rooms && Resolve(t.contents, id).Some?
      && var q := Resolve(t.contents, id).value;
      RoomInvariant.Inv(q, q.contentVersion, t.rooms[id])
  {
    hide Publishing, Made, DefinitionOf, Ready, LiveQuiz, WorldSound, Resolve, QuizOf, Sound, ManifestOf;
    var req, contentVersion := PublicationOf(p);
    DefinitionId(p.before, contentVersion);
    var t := Published(w, p, epoch, capacity);
    DraftInWorld(w, p.before.id);
    ReadsBack(p.before, contentVersion, t.contents);
    QuizVersion(p.before, contentVersion);
    RoomSteps.OpenedIsLegal(QuizOf(p.before, contentVersion), epoch, capacity);
  }

  lemma DraftInWorld(w: World, id: Id)
    requires WorldSound(w)
    ensures id in w.drafts ==> Sound(w.drafts[id])
  {
    hide Sound, Stored, ContentsSound, Made;
  }

  lemma QuizVersion(d: Draft, contentVersion: Id)
    requires Ready(d.items)
    ensures QuizOf(d, contentVersion).contentVersion == contentVersion
  {
  }
}
