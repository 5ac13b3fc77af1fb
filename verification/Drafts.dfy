/** Instructor drafts and their publication (backend/internal/learning/authoring.go and
    backend/internal/store/published.go): documents that callers change optimistically,
    approvals bound to content, and immutable published definitions.

    A content hash stands for the content itself. Whether texts pass the text validators
    is a flag of the content. */
module Drafts {
  import opened Domain
  import opened Attempt
  import Room

  /** `wordKey` is the lower-cased headword. */
  datatype Content = Content(
    wordKey: Id, wellWritten: bool, prompt: string, options: seq<string>, correctIndex: int, explanation: string,
    difficulty: Difficulty, vocabulary: Vocabulary, pronunciationVisible: bool)

  datatype Approval = Approval(content: Content, draftVersion: nat)

  datatype Item = Item(id: Id, content: Content, approval: Option<Approval>)

  datatype Edit = Edit(id: Id, content: Content)

  /** A request is its own fingerprint. */
  datatype Request =
    | Save(expected: int, action: Id, title: string, titleFits: bool, edits: seq<Edit>)
    | Approve(expected: int, action: Id, itemId: Id)
    | Publish(expected: int, action: Id, finalReviewed: bool)

  datatype Draft = Draft(
    id: Id, version: nat, title: string, items: seq<Item>, published: bool, quizId: Option<Id>,
    contentVersion: Option<Id>, intents: map<Id, Request>)

  datatype Code =
    | IdempotencyConflict | AlreadyPublished | VersionConflict | LimitReached
    | Invalid | NotFound | ApprovalRequired | Quota

  datatype Verdict = Refused(code: Code) | Replayed | Changed(next: Draft)

  /** A published definition: the quiz without study details, and the details apart. */
  datatype Definition = Definition(quiz: Quiz, study: map<Id, Study>)

  const MAX_INTENTS := 200
  const MAX_PUBLISHED := 20

  predicate Valid(c: Content) {
    c.wellWritten && |c.options| == 4 && 0 <= c.correctIndex <= 3
  }

  // ---------- Saving and approving ----------

  function Words(edits: seq<Edit>): (r: seq<Id>)
    ensures |r| == |edits|
  {
    seq(|edits|, i requires 0 <= i < |edits| => edits[i].content.wordKey)
  }

  /** Same items in the same order, valid contents, no headword twice. */
  predicate EditsFit(items: seq<Item>, edits: seq<Edit>) {
    && |edits| == |items|
    && (forall i :: 0 <= i < |items| ==> edits[i].id == items[i].id && Valid(edits[i].content))
    && Distinct(Words(edits))
  }

  /** New content voids an approval, unchanged content keeps it. */
  function Edited(item: Item, content: Content): Item {
    Item(item.id, content, if item.content != content then None else item.approval)
  }

  function AllEdited(items: seq<Item>, edits: seq<Edit>): (r: seq<Item>)
    requires |items| == |edits|
    ensures |r| == |items|
  {
    seq(|items|, i requires 0 <= i < |items| => Edited(items[i], edits[i].content))
  }

  function IndexOf(items: seq<Item>, id: Id): (k: nat)
    ensures k <= |items|
    ensures k < |items| ==> items[k].id == id
  {
    if items == [] then 0 else if items[0].id == id then 0 else 1 + IndexOf(items[1..], id)
  }

  function Approved(item: Item, version: nat): Item {
    item.(approval := Some(Approval(item.content, version)))
  }

  /** The change a save or an approval makes, or its refusal. */
  function Change(d: Draft, req: Request): Verdict {
    match req
    case Save(_, _, title, titleFits, edits) =>
      if !titleFits || !EditsFit(d.items, edits) then Refused(Invalid)
      else Changed(d.(items := AllEdited(d.items, edits), title := title))
    case Approve(_, _, itemId) =>
      var k := IndexOf(d.items, itemId);
      if k == |d.items| then Refused(NotFound)
      else if !Valid(d.items[k].content) then Refused(Invalid)
      else Changed(d.(items := d.items[k := Approved(d.items[k], d.version)]))
    case Publish(_, _, _) => Refused(NotFound)
  }

  function Stamped(d: Draft, req: Request): Draft {
    d.(version := d.version + 1, intents := d.intents[req.action := req])
  }

  /** Checks every mutation makes first; None to go on. */
  function Gate(d: Draft, req: Request): Option<Verdict> {
    if req.action in d.intents then
      Some(if d.intents[req.action] != req then Refused(IdempotencyConflict) else Replayed)
    else if d.published then Some(Refused(AlreadyPublished))
    else if d.version != req.expected then Some(Refused(VersionConflict))
    else None
  }

  /** mutateDraft, up to its write. */
  function Mutate(d: Draft, req: Request): Verdict {
    if Gate(d, req).Some? then Gate(d, req).value
    else if |d.intents| >= MAX_INTENTS then Refused(LimitReached)
    else
      match Change(d, req)
      case Refused(code) => Refused(code)
      case Replayed => Replayed
      case Changed(next) => Changed(Stamped(next, req))
  }

  // ---------- Publishing ----------

  /** The quiz id is a prefix of the draft id. */
  function QuizIdOf(draftId: Id): Id {
    draftId / 0x1_0000_0000_0000_0000_0000
  }

  function Seconds(d: Difficulty): int {
    match d
    case Easy => 20
    case Medium => 30
    case Hard => 40
  }

  function StudyOf(c: Content): Study {
    Study(Timing(c.difficulty, Seconds(c.difficulty)), c.vocabulary,
          if c.pronunciationVisible then c.vocabulary.word else "")
  }

  /** Choices a, b, c, d. */
  function ChoicesOf(options: seq<string>): (r: seq<Choice>)
    ensures |r| == |options|
  {
    seq(|options|, i requires 0 <= i < |options| => Choice(i, options[i]))
  }

  function GradedOf(item: Item): Graded
    requires 0 <= item.content.correctIndex
  {
    var c := item.content;
    Graded(Question(item.id, c.prompt, ChoicesOf(c.options), None, ""), c.correctIndex, c.explanation, StudyOf(c))
  }

  predicate ItemReady(item: Item) {
    Valid(item.content) && item.approval.Some? && item.approval.value.content == item.content
  }

  predicate Ready(items: seq<Item>) {
    forall i :: 0 <= i < |items| ==> ItemReady(items[i])
  }

  function QuestionsOf(items: seq<Item>): (r: seq<Graded>)
    requires Ready(items)
    ensures |r| == |items|
  {
    seq(|items|, i requires 0 <= i < |items| => GradedOf(items[i]))
  }

  function DetailsOf(items: seq<Item>): map<Id, Study> {
    if items == [] then map[]
    else
      var last := |items| - 1;
      DetailsOf(items[..last])[items[last].id := StudyOf(items[last].content)]
  }

  /** The quiz a draft's approved items make. */
  function QuizOf(d: Draft, contentVersion: Id): Quiz
    requires Ready(d.items)
  {
    Quiz(QuizIdOf(d.id), d.title, contentVersion, 0, QuestionsOf(d.items))
  }

  const NO_STUDY := Study(Timing(Easy, 0), Vocabulary("", ""), "")

  /** Encoding a definition drops the study details of its questions. */
  function Bare(g: Graded): Graded {
    g.(study := NO_STUDY)
  }

  function BareAll(gs: seq<Graded>): (r: seq<Graded>)
    ensures |r| == |gs|
  {
    seq(|gs|, i requires 0 <= i < |gs| => Bare(gs[i]))
  }

  function DefinitionOf(d: Draft, contentVersion: Id): Definition
    requires Ready(d.items)
  {
    var q := QuizOf(d, contentVersion);
    Definition(q.(questions := BareAll(q.questions)), DetailsOf(d.items))
  }

  /** PublishDraft, up to the script. */
  function Publishing(d: Draft, req: Request, contentVersion: Id): Verdict
    requires req.Publish?
  {
    if Gate(d, req).Some? then Gate(d, req).value
    else if !req.finalReviewed || !Ready(d.items) then Refused(ApprovalRequired)
    else
      var next := d.(published := true, quizId := Some(QuizIdOf(d.id)), contentVersion := Some(contentVersion));
      Changed(Stamped(next, req))
  }

  // ---------- The program's loops ----------

  /** The first i edits are in and fit. */
  ghost predicate SavedTo(items: seq<Item>, edits: seq<Edit>, now: seq<Item>, i: nat) {
    && i <= |edits| == |items| == |now| && now[i..] == items[i..]
    && (forall k :: 0 <= k < i ==> now[k] == Edited(items[k], edits[k].content))
    && (forall k :: 0 <= k < i ==> edits[k].id == items[k].id && Valid(edits[k].content))
    && Distinct(Words(edits)[..i])
  }

  lemma SaveMoves(items: seq<Item>, edits: seq<Edit>, now: seq<Item>, i: nat)
    requires SavedTo(items, edits, now, i) && i < |edits|
    ensures now[i] == items[i]
    ensures
      if edits[i].id == items[i].id && Valid(edits[i].content) && edits[i].content.wordKey !in Words(edits)[..i]
      then SavedTo(items, edits, now[i := Edited(items[i], edits[i].content)], i + 1)
      else !EditsFit(items, edits)
    ensures Words(edits)[..i + 1] == Words(edits)[..i] + [edits[i].content.wordKey]
  {
    hide Valid;
    var words := Words(edits);
    assert now[i..][0] == items[i..][0];
    var next := now[i := Edited(items[i], edits[i].content)];
    assert next[i + 1..] == now[i..][1..];
    assert words[..i + 1] == words[..i] + [words[i]];
    if words[i] in words[..i] {
      var k :| 0 <= k < i && words[..i][k] == words[i];
      assert words[k] == words[i];
    }
  }

  lemma SaveEnds(items: seq<Item>, edits: seq<Edit>, now: seq<Item>)
    requires SavedTo(items, edits, now, |edits|)
    ensures EditsFit(items, edits) && now == AllEdited(items, edits)
  {
    assert Words(edits)[..|edits|] == Words(edits);
  }

  /** SaveDraft's change, item by item. */
  method SaveItems(d: Draft, edits: seq<Edit>) returns (items: Option<seq<Item>>)
    ensures items == if EditsFit(d.items, edits) then Some(AllEdited(d.items, edits)) else None
  {
    hide SavedTo, EditsFit, Words, Valid;
    if |edits| != |d.items| {
      UnevenEdits(d.items, edits);
      return None;
    }
    var now := d.items;
    var seen: set<Id> := {};
    SaveBegins(d.items, edits);
    for i := 0 to |edits|
      invariant |now| == |edits| && SavedTo(d.items, edits, now, i)
      invariant forall id :: id in seen <==> id in Words(edits)[..i]
    {
      var edit := edits[i];
      SaveMoves(d.items, edits, now, i);
      if edit.id != now[i].id || !Valid(edit.content) || edit.content.wordKey in seen {
        return None;
      }
      seen := seen + {edit.content.wordKey};
      var item := now[i];
      if item.content != edit.content {
        item := item.(approval := None);
      }
      now := now[i := item.(content := edit.content)];
    }
    SaveEnds(d.items, edits, now);
    items := Some(now);
  }

  lemma SaveBegins(items: seq<Item>, edits: seq<Edit>)
    requires |edits| == |items|
    ensures SavedTo(items, edits, items, 0)
  {
  }

  lemma UnevenEdits(items: seq<Item>, edits: seq<Edit>)
    requires |edits| != |items|
    ensures !EditsFit(items, edits)
  {
  }

  method MakeChoices(texts: seq<string>) returns (options: seq<Choice>)
    ensures options == ChoicesOf(texts)
  {
    options := [];
    for k := 0 to |texts|
      invariant options == ChoicesOf(texts)[..k]
    {
      options := options + [Choice(k, texts[k])];
    }
  }

  lemma OneMoreItem(items: seq<Item>, i: nat)
    requires i < |items| && Ready(items[..i])
    ensures if ItemReady(items[i]) then Ready(items[..i + 1]) else !Ready(items)
    ensures ItemReady(items[i]) ==>
      && BareAll(QuestionsOf(items[..i + 1])) == BareAll(QuestionsOf(items[..i])) + [Bare(GradedOf(items[i]))]
      && DetailsOf(items[..i + 1]) == DetailsOf(items[..i])[items[i].id := StudyOf(items[i].content)]
  {
    hide ItemReady;
    assert items[..i + 1] == items[..i] + [items[i]];
    assert items[..i + 1][..i] == items[..i];
  }

  /** PublishDraft's loop: questions and study details, or a missing approval. */
  method BuildQuiz(d: Draft, contentVersion: Id) returns (definition: Option<Definition>)
    ensures definition == if Ready(d.items) then Some(DefinitionOf(d, contentVersion)) else None
  {
    hide Ready, QuestionsOf, BareAll, DetailsOf;
    var questions: seq<Graded> := [];
    var study: map<Id, Study> := map[];
    NothingBuilt();
    for i := 0 to |d.items|
      invariant d.items[..0] == [] && Ready(d.items[..i])
      invariant questions == BareAll(QuestionsOf(d.items[..i]))
      invariant study == DetailsOf(d.items[..i])
    {
      var item := d.items[i];
      var c := item.content;
      OneMoreItem(d.items, i);
      if !Valid(c) || item.approval.None? || item.approval.value.content != c {
        return None;
      }
      var options := MakeChoices(c.options);
      study := study[item.id := StudyOf(c)];
      questions := questions + [Graded(Question(item.id, c.prompt, options, None, ""), c.correctIndex, c.explanation,
        NO_STUDY)];
    }
    assert d.items[..|d.items|] == d.items;
    definition := Some(Definition(Quiz(QuizIdOf(d.id), d.title, contentVersion, 0, questions), study));
  }

  lemma NothingBuilt()
    ensures Ready([]) && BareAll(QuestionsOf([])) == [] && DetailsOf([]) == map[]
  {
  }

  method FindItem(items: seq<Item>, id: Id) returns (k: nat)
    ensures k == IndexOf(items, id)
  {
    k := 0;
    while k < |items|
      invariant k <= |items| && IndexOf(items, id) == k + IndexOf(items[k..], id)
    {
      if items[k].id == id {
        return;
      }
      k := k + 1;
    }
  }

  /** mutateDraft with the change of SaveDraft or ApproveDraftItem, up to its write. */
  method MutateDraft(d: Draft, req: Request) returns (v: Verdict)
    requires !req.Publish?
    ensures v == Mutate(d, req)
  {
    hide EditsFit, IndexOf, Valid, AllEdited;
    if req.action in d.intents {
      if d.intents[req.action] != req {
        return Refused(IdempotencyConflict);
      }
      return Replayed;
    }
    if d.published {
      return Refused(AlreadyPublished);
    }
    if d.version != req.expected {
      return Refused(VersionConflict);
    }
    if |d.intents| >= MAX_INTENTS {
      return Refused(LimitReached);
    }
    var next := d;
    if req.Save? {
      if !req.titleFits {
        return Refused(Invalid);
      }
      var items := SaveItems(d, req.edits);
      if items.None? {
        return Refused(Invalid);
      }
      next := next.(items := items.value, title := req.title);
    } else {
      var k := FindItem(d.items, req.itemId);
      if k == |d.items| {
        return Refused(NotFound);
      }
      if !Valid(d.items[k].content) {
        return Refused(Invalid);
      }
      var item := next.items[k];
      next := next.(items := next.items[k := item.(approval := Some(Approval(item.content, d.version)))]);
    }
    next := next.(version := next.version + 1);
    next := next.(intents := next.intents[req.action := req]);
    v := Changed(next);
  }

  // ---------- Reading a definition ----------

  /** The questions with their study details put back; None when one has none. */
  function Attached(gs: seq<Graded>, study: map<Id, Study>): Option<seq<Graded>> {
    if gs == [] then Some([])
    else
      var last := gs[|gs| - 1];
      var front := Attached(gs[..|gs| - 1], study);
      if front.None? || last.question.id !in study then None
      else Some(front.value + [last.(study := study[last.question.id])])
  }

  function Resolve(contents: map<Id, Definition>, id: Id): Option<Quiz> {
    if id !in contents then None
    else
      var d := contents[id];
      if d.quiz.id != id || |d.quiz.questions| < 4 || |d.quiz.questions| > 8 then None
      else
        var gs := Attached(d.quiz.questions, d.study);
        if gs.None? then None else Some(d.quiz.(questions := gs.value))
  }

  /** RedisQuizRepository.Get, in place. */
  method Get(contents: map<Id, Definition>, id: Id) returns (q: Option<Quiz>)
    ensures q == Resolve(contents, id)
  {
    if id !in contents {
      return None;
    }
    var d := contents[id];
    if d.quiz.id != id || |d.quiz.questions| < 4 || |d.quiz.questions| > 8 {
      return None;
    }
    var questions := d.quiz.questions;
    for i := 0 to |questions|
      invariant |questions| == |d.quiz.questions| && questions[i..] == d.quiz.questions[i..]
      invariant Attached(d.quiz.questions[..i], d.study) == Some(questions[..i])
    {
      var g := d.quiz.questions[i];
      assert questions[i..][0] == d.quiz.questions[i..][0];
      assert d.quiz.questions[..i + 1][..i] == d.quiz.questions[..i];
      if questions[i].question.id !in d.study {
        MissingDetails(d.quiz.questions, d.study, i);
        return None;
      }
      ghost var before := questions;
      questions := questions[i := questions[i].(study := d.study[questions[i].question.id])];
      assert questions[..i + 1] == before[..i] + [questions[i]];
      assert questions[i + 1..] == before[i..][1..];
    }
    assert d.quiz.questions[..|questions|] == d.quiz.questions && questions[..|questions|] == questions;
    q := Some(d.quiz.(questions := questions));
  }

  lemma {:induction false} MissingDetails(gs: seq<Graded>, study: map<Id, Study>, i: nat)
    requires i < |gs| && gs[i].question.id !in study
    ensures Attached(gs, study).None?
    decreases |gs|
  {
    if i < |gs| - 1 {
      MissingDetails(gs[..|gs| - 1], study, i);
    }
  }
}
