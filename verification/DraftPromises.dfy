/** What instructors are told and what learners get: how a draft's requests are answered, what
    a published quiz asks, and that nothing is published but what was approved. */
module DraftPromises {
  import opened Domain
  import opened Attempt
  import opened Drafts
  import opened DraftRuns
  import Room

  // ---------- What a published quiz asks ----------

  /** The question is the item the instructor approved: its id, prompt and explanation, its
      options in their order, its key at the item's index and nowhere else, its study details,
      and 20, 30 or 40 seconds for an easy, medium or hard one. */
  predicate AsksItem(g: Graded, item: Item) {
    var c, options := item.content, g.question.options;
    && g.question.id == item.id && g.question.prompt == c.prompt && g.explanation == c.explanation
    && |options| == |c.options| == 4 && (forall k :: 0 <= k < 4 ==> options[k].text == c.options[k])
    && 0 <= c.correctIndex < 4
    && (forall k :: 0 <= k < 4 ==> (options[k].id == g.correctOptionId <==> k == c.correctIndex))
    && g.study.vocabulary == c.vocabulary
    && g.study.publicPronunciation == (if c.pronunciationVisible then c.vocabulary.word else "")
    && g.study.timing.difficulty == c.difficulty
    && g.study.timing.seconds == (if c.difficulty.Easy? then 20 else if c.difficulty.Medium? then 30 else 40)
  }

  lemma QuestionAsksItem(item: Item)
    requires ItemReady(item)
    ensures AsksItem(GradedOf(item), item)
  {
  }

  lemma QuizAsksItems(d: Draft, contentVersion: Id, i: nat)
    requires Ready(d.items) && i < |d.items|
    ensures |QuizOf(d, contentVersion).questions| == |d.items|
    ensures AsksItem(QuizOf(d, contentVersion).questions[i], d.items[i])
    ensures QuizOf(d, contentVersion).title == d.title && QuizOf(d, contentVersion).contentVersion == contentVersion
  {
    hide AsksItem, ItemReady;
    assert ItemReady(d.items[i]);
    QuestionAsksItem(d.items[i]);
  }

  /** Over runs: whenever a draft shows as published, the quiz under its id resolves, under the
      draft's title and with one question for each item, and question i asks item i, whose
      approval is for exactly the content that it asks. */
  lemma PublishedAsksApproved(w: World, steps: seq<Step>, id: Id, i: nat)
    requires WorldSound(w) && AllAllowed(steps) && id in Run(w, steps).drafts && Run(w, steps).drafts[id].published
    requires i < |Run(w, steps).drafts[id].items|
    ensures
      var t := Run(w, steps);
      var d := t.drafts[id];
      && d.quizId.Some? && d.contentVersion.Some? && Resolve(t.contents, d.quizId.value).Some?
      && var q := Resolve(t.contents, d.quizId.value).value;
      && q.id == d.quizId.value && q.title == d.title && q.contentVersion == d.contentVersion.value
      && |q.questions| == |d.items| && AsksItem(q.questions[i], d.items[i])
      && d.items[i].approval.Some? && d.items[i].approval.value.content == d.items[i].content
  {
    hide WorldSound, AllAllowed, Run, QuizOf, AsksItem, LiveQuiz;
    PublishedResolves(w, steps, id);
    var d := Run(w, steps).drafts[id];
    QuizAsksItems(d, d.contentVersion.value, i);
    ResolvesUnderId(Run(w, steps).contents, d.quizId.value);
    assert ItemReady(d.items[i]);
  }

  lemma ResolvesUnderId(contents: map<Id, Definition>, id: Id)
    ensures Resolve(contents, id).Some? ==> Resolve(contents, id).value.id == id
  {
    hide Attached;
  }

  /** The quiz id is the draft id's first twelve of thirty-two hexadecimal digits, whatever the
      twenty that follow. */
  lemma QuizIdIsPrefix(prefix: nat, rest: nat)
    requires rest < 0x1_0000_0000_0000_0000_0000
    ensures QuizIdOf(prefix * 0x1_0000_0000_0000_0000_0000 + rest) == prefix
  {
  }

  // ---------- What a request is told ----------

  /** A new request for the draft as it is: its action is new, the draft is not published, and
      its version is the one expected. */
  predicate Timely(d: Draft, req: Request) {
    req.action !in d.intents && !d.published && req.expected == d.version
  }

  /** The replies every request may get before it is looked at. */
  ghost predicate GateTold(d: Draft, req: Request, v: Verdict) {
    && (v == Replayed <==> req.action in d.intents && d.intents[req.action] == req)
    && (v == Drafts.Refused(IdempotencyConflict) <==> req.action in d.intents && d.intents[req.action] != req)
    && (v == Drafts.Refused(AlreadyPublished) <==> req.action !in d.intents && d.published)
    && (v == Drafts.Refused(VersionConflict) <==>
          req.action !in d.intents && !d.published && req.expected != d.version)
  }

  /** Texts that pass, four options, and one of the four as the key. */
  predicate WellMade(c: Content) {
    c.wellWritten && |c.options| == 4 && c.correctIndex in {0, 1, 2, 3}
  }

  /** Every item has an edit of its own, in order, with valid content, and no headword occurs twice. */
  ghost predicate GoodEdits(items: seq<Item>, edits: seq<Edit>) {
    && |edits| == |items|
    && (forall i :: 0 <= i < |items| ==> edits[i].id == items[i].id && WellMade(edits[i].content))
    && forall i, j :: 0 <= i < j < |edits| ==> edits[i].content.wordKey != edits[j].content.wordKey
  }

  ghost predicate Saved(d: Draft, req: Request, t: Draft)
    requires req.Save?
  {
    && t.title == req.title && |t.items| == |d.items| == |req.edits|
    && forall i :: 0 <= i < |d.items| ==>
         && t.items[i].id == d.items[i].id && t.items[i].content == req.edits[i].content
         && t.items[i].approval
              == (if req.edits[i].content == d.items[i].content then d.items[i].approval else None)
  }

  /** Saving: what it is told, and that it takes over title and contents and voids exactly the
      approvals of contents that it changes. */
  lemma SaveIsTold(d: Draft, req: Request)
    requires req.Save?
    ensures
      var v := Mutate(d, req);
      && GateTold(d, req, v)
      && (v == Drafts.Refused(LimitReached) <==> Timely(d, req) && |d.intents| >= 200)
      && (v == Drafts.Refused(Invalid) <==>
            Timely(d, req) && |d.intents| < 200 && !(req.titleFits && GoodEdits(d.items, req.edits)))
      && (v.Changed? <==> Timely(d, req) && |d.intents| < 200 && req.titleFits && GoodEdits(d.items, req.edits))
      && (v.Changed? ==>
            && Saved(d, req, v.next)
            && v.next == d.(title := v.next.title, items := v.next.items, version := d.version + 1,
                            intents := d.intents[req.action := req]))
  {
    hide Valid;
    EditsFitExactly(d.items, req.edits);
  }

  lemma ValidIsWellMade(c: Content)
    ensures Valid(c) <==> WellMade(c)
  {
  }

  lemma EditsFitExactly(items: seq<Item>, edits: seq<Edit>)
    ensures EditsFit(items, edits) <==> GoodEdits(items, edits)
  {
    hide Valid, WellMade;
    forall i | 0 <= i < |edits|
      ensures Valid(edits[i].content) <==> WellMade(edits[i].content)
    {
      ValidIsWellMade(edits[i].content);
    }
    if EditsFit(items, edits) {
      forall i, j | 0 <= i < j < |edits|
        ensures edits[i].content.wordKey != edits[j].content.wordKey
      {
        assert Words(edits)[i] != Words(edits)[j];
      }
    }
  }

  /** Approving: what it is told, and that it approves exactly the named item, for its content
      of that moment and at that version. */
  lemma ApprovalIsTold(d: Draft, req: Request, k: nat)
    requires Sound(d) && req.Approve? && k < |d.items| && d.items[k].id == req.itemId
    ensures
      var v := Mutate(d, req);
      && GateTold(d, req, v)
      && (v == Drafts.Refused(LimitReached) <==> Timely(d, req) && |d.intents| >= 200)
      && (v == Drafts.Refused(Invalid) <==> Timely(d, req) && |d.intents| < 200 && !WellMade(d.items[k].content))
      && (v.Changed? <==> Timely(d, req) && |d.intents| < 200 && WellMade(d.items[k].content))
      && (v.Changed? ==>
            v.next == d.(items := d.items[k := d.items[k].(
                                    approval := Some(Approval(d.items[k].content, req.expected)))],
                         version := d.version + 1, intents := d.intents[req.action := req]))
  {
    hide Valid, WellMade, Ready;
    IndexIs(d.items, req.itemId, k);
    ValidIsWellMade(d.items[k].content);
  }

  lemma {:induction false} IndexIs(items: seq<Item>, id: Id, k: nat)
    requires Distinct(ItemIds(items)) && k < |items| && items[k].id == id
    ensures IndexOf(items, id) == k
    decreases |items|
  {
    if k > 0 {
      assert ItemIds(items)[0] != ItemIds(items)[k];
      assert ItemIds(items[1..]) == ItemIds(items)[1..];
      IndexIs(items[1..], id, k - 1);
    }
  }

  /** An approval that names no item is refused as such. */
  lemma UnknownItemIsTold(d: Draft, req: Request)
    requires req.Approve? && forall i :: 0 <= i < |d.items| ==> d.items[i].id != req.itemId
    ensures GateTold(d, req, Mutate(d, req))
    ensures Timely(d, req) && |d.intents| < 200 ==> Mutate(d, req) == Drafts.Refused(NotFound)
  {
    hide Valid;
  }

  /** Every item is valid, and approved for the content it has. */
  ghost predicate AllApproved(items: seq<Item>) {
    forall i :: 0 <= i < |items| ==>
      WellMade(items[i].content) && items[i].approval.Some? && items[i].approval.value.content == items[i].content
  }

  lemma ReadyExactly(items: seq<Item>)
    ensures Ready(items) <==> AllApproved(items)
  {
    hide Valid, WellMade;
    forall i | 0 <= i < |items|
      ensures Valid(items[i].content) <==> WellMade(items[i].content)
    {
      ValidIsWellMade(items[i].content);
    }
    if Ready(items) {
      forall i | 0 <= i < |items|
        ensures WellMade(items[i].content) && items[i].approval.Some?
        ensures items[i].approval.value.content == items[i].content
      {
        assert ItemReady(items[i]);
      }
    }
  }

  /** Publishing goes on exactly when the instructor has reviewed the whole and every item is
      valid and approved as it is; then nothing of the draft changes but its status. */
  lemma PublishIsTold(d: Draft, req: Request, contentVersion: Id)
    requires req.Publish?
    ensures
      var v := Publishing(d, req, contentVersion);
      && GateTold(d, req, v)
      && (v == Drafts.Refused(ApprovalRequired) <==> Timely(d, req) && !(req.finalReviewed && AllApproved(d.items)))
      && (v.Changed? <==> Timely(d, req) && req.finalReviewed && AllApproved(d.items))
      && (v.Changed? ==>
            v.next == d.(published := true, quizId := Some(QuizIdOf(d.id)), contentVersion := Some(contentVersion),
                         version := d.version + 1, intents := d.intents[req.action := req]))
  {
    hide AllApproved, Ready;
    ReadyExactly(d.items);
  }

  // ---------- Nothing is published that was not approved ----------

  /** Every approval was asked for by a request that the draft took, for the item, at the
      version that the approval names. */
  ghost predicate Backed(d: Draft) {
    forall i :: 0 <= i < |d.items| && d.items[i].approval.Some? ==>
      AskedFor(d.intents, d.items[i].id, d.items[i].approval.value.draftVersion)
  }

  ghost predicate AskedFor(intents: map<Id, Request>, item: Id, version: nat) {
    exists a :: a in intents && intents[a].Approve? && intents[a].itemId == item && intents[a].expected == version
  }

  lemma AskedStays(intents: map<Id, Request>, a: Id, req: Request, item: Id, version: nat)
    requires a !in intents && AskedFor(intents, item, version)
    ensures AskedFor(intents[a := req], item, version)
  {
    var b :| b in intents && intents[b].Approve? && intents[b].itemId == item && intents[b].expected == version;
    assert b in intents[a := req] && intents[a := req][b] == intents[b];
  }

  lemma MutateKeepsBacked(d: Draft, req: Request)
    requires Backed(d) && Mutate(d, req).Changed?
    ensures Backed(Mutate(d, req).next)
  {
    hide Valid, EditsFit, AskedFor;
    var t := Mutate(d, req).next;
    if req.Save? {
      EditsHaveLength(d, req);
    }
    forall i | 0 <= i < |t.items| && t.items[i].approval.Some?
      ensures AskedFor(t.intents, t.items[i].id, t.items[i].approval.value.draftVersion)
    {
      if t.items[i].approval == d.items[i].approval {
        AskedStays(d.intents, req.action, req, d.items[i].id, d.items[i].approval.value.draftVersion);
      } else {
        JustAsked(d.intents, req);
      }
    }
  }

  lemma JustAsked(intents: map<Id, Request>, req: Request)
    ensures req.Approve? && req.expected >= 0 ==> AskedFor(intents[req.action := req], req.itemId, req.expected)
  {
    assert req.action in intents[req.action := req];
  }

  lemma PublishingKeepsBacked(d: Draft, req: Request, contentVersion: Id)
    requires Backed(d) && req.Publish? && Publishing(d, req, contentVersion).Changed?
    ensures Backed(Publishing(d, req, contentVersion).next)
  {
    hide Ready, AskedFor;
    forall i | 0 <= i < |d.items| && d.items[i].approval.Some?
      ensures AskedFor(d.intents[req.action := req], d.items[i].id, d.items[i].approval.value.draftVersion)
    {
      AskedStays(d.intents, req.action, req, d.items[i].id, d.items[i].approval.value.draftVersion);
    }
  }

  ghost predicate WorldBacked(w: World) {
    && (forall id :: id in w.drafts ==> Backed(w.drafts[id]))
    && (forall caller {:trigger w.prepared[caller]} :: caller in w.prepared ==> Backed(w.prepared[caller].next))
  }

  lemma PreparedIsBacked(d: Draft, req: Request, contentVersion: Id)
    requires Backed(d) && PreparedFor(d, req, contentVersion).Some?
    ensures Backed(PreparedFor(d, req, contentVersion).value.next)
  {
    hide Backed, Mutate, Publishing, DefinitionOf, ManifestOf, QuizOf;
    if req.Publish? {
      PublishingKeepsBacked(d, req, contentVersion);
    } else {
      MutateKeepsBacked(d, req);
    }
  }

  lemma StepKeepsBacked(w: World, step: Step)
    requires WorldBacked(w) && Allowed(step)
    ensures WorldBacked(After(w, step))
  {
    hide Backed, PreparedFor;
    match step {
      case Create(draft) => FreshIsBacked(draft);
      case Prepare(caller, id, req, contentVersion) =>
        if id in w.drafts && PreparedFor(w.drafts[id], req, contentVersion).Some? {
          PreparedIsBacked(w.drafts[id], req, contentVersion);
        }
      case _ =>
    }
  }

  lemma FreshIsBacked(d: Draft)
    requires Fresh(d)
    ensures Backed(d)
  {
  }

  lemma {:induction false} RunKeepsBacked(w: World, steps: seq<Step>)
    requires WorldBacked(w) && AllAllowed(steps)
    ensures WorldBacked(Run(w, steps))
    decreases |steps|
  {
    hide WorldBacked, Allowed, After;
    if steps != [] {
      assert steps[0] in steps;
      assert forall s :: s in steps[1..] ==> s in steps;
      StepKeepsBacked(w, steps[0]);
      RunKeepsBacked(After(w, steps[0]), steps[1..]);
    }
  }

  const NOTHING := World(map[], map[], map[], map[])

  /** In every run from an empty repository, each item of a published draft carries an approval
      for its very content, and the draft took a request to approve that item at the version
      that the approval names: nothing reaches learners that no instructor approved. */
  lemma PublishedWasApproved(steps: seq<Step>, id: Id, i: nat)
    requires AllAllowed(steps) && id in Run(NOTHING, steps).drafts && Run(NOTHING, steps).drafts[id].published
    requires i < |Run(NOTHING, steps).drafts[id].items|
    ensures
      var d := Run(NOTHING, steps).drafts[id];
      && d.items[i].approval.Some? && d.items[i].approval.value.content == d.items[i].content
      && AskedFor(d.intents, d.items[i].id, d.items[i].approval.value.draftVersion)
  {
    hide AllAllowed, Run, AsksItem, AskedFor;
    PublishedAsksApproved(NOTHING, steps, id, i);
    RunKeepsBacked(NOTHING, steps);
  }

  // ---------- Many callers ----------

  /** Nobody's steps but the caller's concern what the caller has prepared. */
  predicate OfOthers(steps: seq<Step>, caller: Id) {
    forall s :: s in steps && (s.Prepare? || s.PutBack?) ==> s.caller != caller
  }

  lemma {:induction false} PreparedStays(w: World, steps: seq<Step>, caller: Id)
    requires OfOthers(steps, caller) && caller in w.prepared
    ensures caller in Run(w, steps).prepared && Run(w, steps).prepared[caller] == w.prepared[caller]
    decreases |steps|
  {
    hide PreparedFor;
    if steps != [] {
      assert steps[0] in steps && forall s :: s in steps[1..] ==> s in steps;
      PreparedStays(After(w, steps[0]), steps[1..], caller);
    }
  }

  /** A save or an approval that is put back after any steps of others is kept exactly when the
      draft is still the one that was read. */
  lemma MutationIsKeptExactly(w: World, steps: seq<Step>, caller: Id, id: Id, req: Request, epoch: Id, capacity: int)
    requires OfOthers(steps, caller) && id in w.drafts && w.drafts[id].id == id
    requires !req.Publish? && Mutate(w.drafts[id], req).Changed?
    ensures
      var u := Run(After(w, Prepare(caller, id, req, 0)), steps);
      After(u, PutBack(caller, epoch, capacity)).drafts ==
        if id in u.drafts && u.drafts[id] == w.drafts[id]
        then u.drafts[id := Mutate(w.drafts[id], req).next] else u.drafts
  {
    hide Run, Mutate;
    PreparedStays(After(w, Prepare(caller, id, req, 0)), steps, caller);
  }

  /** A publication that is put back is carried out exactly when the draft is still the one that
      was read, fewer than twenty quizzes are published, and neither quiz nor room of its id is
      there; then definition, draft and room appear together, and otherwise nothing does. */
  lemma PublicationIsKeptExactly(w: World, steps: seq<Step>, caller: Id, id: Id, req: Request, contentVersion: Id,
      epoch: Id, capacity: int)
    requires OfOthers(steps, caller) && id in w.drafts && w.drafts[id].id == id
    requires req.Publish? && Ready(w.drafts[id].items) && Publishing(w.drafts[id], req, contentVersion).Changed?
    ensures
      var d := w.drafts[id];
      var u, quiz := Run(After(w, Prepare(caller, id, req, contentVersion)), steps), QuizIdOf(d.id);
      var t := After(u, PutBack(caller, epoch, capacity));
      if id in u.drafts && u.drafts[id] == d && |u.contents| < 20 && quiz !in u.contents && quiz !in u.rooms then
        && t.contents == u.contents[quiz := DefinitionOf(d, contentVersion)]
        && t.drafts == u.drafts[id := Publishing(d, req, contentVersion).next]
        && t.rooms
             == u.rooms[quiz := Room.Opened(epoch, contentVersion, capacity, ManifestOf(QuizOf(d, contentVersion)))]
      else t.contents == u.contents && t.drafts == u.drafts && t.rooms == u.rooms
  {
    hide Run, Publishing, Ready, ManifestOf, QuizOf, DefinitionOf;
    PreparedStays(After(w, Prepare(caller, id, req, contentVersion)), steps, caller);
    DefinitionId(w.drafts[id], contentVersion);
  }
}
