/** Review sessions (backend/internal/learning/review.go): a deck of cards that grows by
    a reinforcement for each wrong answer, kept in one document that callers read,
    change and put back only if nobody changed it in between. */
module Review {
  import opened Domain
  import opened Attempt
  import opened Store
  import opened Protocol
  import Room

  /** Card ids are hashes of the question's id, or of the card a reinforcement repeats. */
  datatype CardId = OfQuestion(questionId: Id) | Again(card: CardId)

  datatype Card = Card(id: CardId, questionId: Id, options: seq<Choice>, correctOptionId: Id, reinforcement: bool)

  datatype Response = Response(
    cardId: CardId, skipped: bool, selected: Option<Id>, correct: bool, correctOptionId: Id,
    hintUsed: bool, needsAnotherLook: bool)

  datatype Operation = Answers | Advance | Unknown

  /** A request with its path; its fingerprint is the request itself. */
  datatype Request = Request(cardId: CardId, operation: Operation, epoch: Id, actionId: Id, option: Option<Id>,
    skip: bool)

  datatype Document = Document(
    id: Id, quizId: Id, epoch: Id, version: nat, cursor: nat, cards: seq<Card>,
    responses: map<CardId, Response>, hints: map<CardId, Id>, intents: map<Id, Request>)

  datatype Code =
    | EpochMismatch | IdempotencyConflict | LimitReached | Ineligible | Invalid | InvalidOption | NotFound

  /** What ReviewAction makes of a document it has read: an error, an answer that writes
      nothing, or a document to put back. */
  datatype Verdict = Refused(code: Code) | Replayed | Changed(next: Document)

  const MAX_CARDS := 6
  const MAX_INTENTS := 24

  // ---------- Starting ----------

  /** The receipts a deck is made from: at most the first three that were answered wrong,
      or any when all were right. `ordered` is by question number. */
  function Chosen(ordered: seq<Receipt>, all: bool): (r: seq<Receipt>)
    ensures |r| <= 3
    ensures forall x :: x in r ==> x in ordered
  {
    if ordered == [] then []
    else
      var last := |ordered| - 1;
      var front := Chosen(ordered[..last], all);
      if |front| < 3 && (all || !ordered[last].correctness) then front + [ordered[last]] else front
  }

  predicate InNumberOrder(rs: seq<Receipt>) {
    forall i, j :: 0 <= i <= j < |rs| ==> rs[i].questionNumber <= rs[j].questionNumber
  }

  lemma InsertedInOrder(rs: seq<Receipt>, i: nat, r: Receipt)
    requires InNumberOrder(rs) && i <= |rs|
    requires i > 0 ==> rs[i - 1].questionNumber <= r.questionNumber
    requires i < |rs| ==> r.questionNumber < rs[i].questionNumber
    ensures InNumberOrder(rs[..i] + [r] + rs[i..])
  {
    var whole := rs[..i] + [r] + rs[i..];
    assert forall j :: 0 <= j < |whole| ==> whole[j] == if j < i then rs[j] else if j == i then r else rs[j - 1];
  }

  lemma InsertedPermutes(rs: seq<Receipt>, i: nat, r: Receipt, all: seq<Receipt>)
    requires i <= |rs| && Permutes(rs, all)
    ensures Permutes(rs[..i] + [r] + rs[i..], all + [r])
  {
    assert rs == rs[..i] + rs[i..];
  }

  method Insert(rs: seq<Receipt>, r: Receipt) returns (more: seq<Receipt>, ghost i: nat)
    requires InNumberOrder(rs)
    ensures InNumberOrder(more) && i <= |rs| && more == rs[..i] + [r] + rs[i..]
  {
    hide InNumberOrder;
    var k := |rs|;
    while k > 0 && r.questionNumber < rs[k - 1].questionNumber
      invariant 0 <= k <= |rs|
      invariant k < |rs| ==> r.questionNumber < rs[k].questionNumber
    {
      k := k - 1;
    }
    InsertedInOrder(rs, k, r);
    more, i := rs[..k] + [r] + rs[k..], k;
  }

  /** The library's sort, as an insertion sort. */
  method SortByNumber(rs: seq<Receipt>) returns (ordered: seq<Receipt>)
    ensures InNumberOrder(ordered) && Permutes(ordered, rs)
  {
    hide InNumberOrder, Permutes;
    ordered := [];
    NothingToSort();
    for k := 0 to |rs|
      invariant InNumberOrder(ordered) && Permutes(ordered, rs[..k])
    {
      ghost var before := ordered;
      ghost var i: nat;
      ordered, i := Insert(ordered, rs[k]);
      InsertedPermutes(before, i, rs[k], rs[..k]);
      assert rs[..k + 1] == rs[..k] + [rs[k]];
    }
    assert rs[..|rs|] == rs;
  }

  lemma NothingToSort()
    ensures InNumberOrder([]) && Permutes<Receipt>([], [])
  {
  }

  /** The receipts sorted by question number, and the first three of them that count. */
  method Choose(receipts: seq<Receipt>, all: bool) returns (ordered: seq<Receipt>, chosen: seq<Receipt>)
    ensures InNumberOrder(ordered) && Permutes(ordered, receipts)
    ensures chosen == Chosen(ordered, all)
  {
    hide InNumberOrder, Permutes;
    ordered := SortByNumber(receipts);
    chosen := [];
    for i := 0 to |ordered|
      invariant chosen == Chosen(ordered[..i], all)
    {
      assert ordered[..i + 1][..i] == ordered[..i];
      if !ordered[i].correctness || all {
        if |chosen| < 3 {
          chosen := chosen + [ordered[i]];
        }
        if |chosen| == 3 {
          ChosenIsFull(ordered, all, i + 1);
          return;
        }
      }
    }
    assert ordered[..|ordered|] == ordered;
  }

  lemma {:induction false} ChosenIsFull(ordered: seq<Receipt>, all: bool, k: nat)
    requires k <= |ordered| && |Chosen(ordered[..k], all)| == 3
    ensures Chosen(ordered, all) == Chosen(ordered[..k], all)
    decreases |ordered|
  {
    if k < |ordered| {
      var front := ordered[..|ordered| - 1];
      assert front[..k] == ordered[..k];
      ChosenIsFull(front, all, k);
    } else {
      assert ordered[..k] == ordered;
    }
  }

  function CardFor(r: Receipt): Card {
    Card(OfQuestion(r.questionId), r.questionId, r.question.options, r.correctOptionId, false)
  }

  function Deck(chosen: seq<Receipt>): (r: seq<Card>)
    ensures |r| == |chosen|
  {
    seq(|chosen|, i requires 0 <= i < |chosen| => CardFor(chosen[i]))
  }

  function Started(id: Id, quizId: Id, epoch: Id, chosen: seq<Receipt>): Document {
    Document(id, quizId, epoch, 1, 0, Deck(chosen), map[], map[], map[])
  }

  /** Who may start a review: everything answered, and something wrong or extra practice. */
  predicate Eligible(v: Learner, extraPractice: bool) {
    v.completed && (v.correctCount == v.totalQuestions ==> extraPractice)
  }

  // ---------- Acting ----------

  function Reinforcement(card: Card): Card {
    card.(id := Again(card.id), reinforcement := true)
  }

  function Answered(card: Card, req: Request, hinted: bool): Response {
    var correct := !req.skip && req.option == Some(card.correctOptionId);
    Response(card.id, req.skip, req.option, correct, card.correctOptionId, hinted, !correct)
  }

  function Grown(cards: seq<Card>, card: Card, r: Response): seq<Card> {
    if !r.skipped && !r.correct && !card.reinforcement && |cards| < MAX_CARDS
    then cards + [Reinforcement(card)]
    else cards
  }

  function AnswerVerdict(d: Document, card: Card, req: Request): Verdict {
    if card.id in d.responses then Replayed
    else if req.skip && req.option.Some? then Refused(Invalid)
    else if !req.skip && (req.option.None? || req.option.value !in Ids(card.options)) then Refused(Code.InvalidOption)
    else
      var r := Answered(card, req, card.id in d.hints);
      Changed(d.(responses := d.responses[card.id := r], cards := Grown(d.cards, card, r),
                 intents := d.intents[req.actionId := req], version := d.version + 1))
  }

  function AdvanceVerdict(d: Document, card: Card, req: Request): Verdict {
    if card.id !in d.responses || req.option.Some? || req.skip then Refused(Ineligible)
    else Changed(d.(cursor := d.cursor + 1, intents := d.intents[req.actionId := req], version := d.version + 1))
  }

  /** One try of ReviewAction. */
  function Act(d: Document, req: Request): Verdict {
    if d.epoch != req.epoch then Refused(EpochMismatch)
    else if req.actionId in d.intents then
      if d.intents[req.actionId] != req then Refused(IdempotencyConflict) else Replayed
    else if |d.intents| >= MAX_INTENTS then Refused(LimitReached)
    else if d.cursor >= |d.cards| || d.cards[d.cursor].id != req.cardId then
      if req.cardId in d.responses then Replayed else Refused(Ineligible)
    else
      match req.operation
      case Answers => AnswerVerdict(d, d.cards[d.cursor], req)
      case Advance => AdvanceVerdict(d, d.cards[d.cursor], req)
      case Unknown => Refused(NotFound)
  }

  /** One try of ReviewHint's second half, with the generated hint. */
  function Hinted(d: Document, cardId: CardId, artifact: Id): Verdict {
    if d.cursor >= |d.cards| || d.cards[d.cursor].id != cardId || cardId in d.responses || cardId in d.hints
    then Replayed
    else Changed(d.(hints := d.hints[cardId := artifact], version := d.version + 1))
  }

  // ---------- The calls ----------

  /** One try of ReviewAction, as the program makes it: checks, then changes in place. */
  method TryAction(d: Document, req: Request) returns (v: Verdict)
    ensures v == Act(d, req)
  {
    if d.epoch != req.epoch {
      return Refused(EpochMismatch);
    }
    if req.actionId in d.intents {
      if d.intents[req.actionId] != req {
        return Refused(IdempotencyConflict);
      }
      return Replayed;
    }
    if |d.intents| >= MAX_INTENTS {
      return Refused(LimitReached);
    }
    if d.cursor >= |d.cards| || d.cards[d.cursor].id != req.cardId {
      if req.cardId in d.responses {
        return Replayed;
      }
      return Refused(Ineligible);
    }
    var card := d.cards[d.cursor];
    var answered := req.cardId in d.responses;
    var next := d;
    match req.operation {
      case Answers =>
        if answered {
          return Replayed;
        }
        if req.skip && req.option.Some? {
          return Refused(Invalid);
        }
        if !req.skip {
          var valid := OffersOption(card.options, req.option);
          if !valid {
            return Refused(Code.InvalidOption);
          }
        }
        var correct := !req.skip && req.option == Some(card.correctOptionId);
        var response := Response(req.cardId, req.skip, req.option, correct, card.correctOptionId,
          req.cardId in d.hints, !correct);
        next := next.(responses := next.responses[req.cardId := response]);
        if !req.skip && !correct && !card.reinforcement && |next.cards| < MAX_CARDS {
          card := card.(id := Again(req.cardId), reinforcement := true);
          next := next.(cards := next.cards + [card]);
        }
      case Advance =>
        if !answered || req.option.Some? || req.skip {
          return Refused(Ineligible);
        }
        next := next.(cursor := next.cursor + 1);
      case Unknown =>
        return Refused(NotFound);
    }
    next := next.(intents := next.intents[req.actionId := req]);
    next := next.(version := next.version + 1);
    v := Changed(next);
  }

  method OffersOption(options: seq<Choice>, option: Option<Id>) returns (valid: bool)
    ensures valid <==> option.Some? && option.value in Ids(options)
  {
    valid := false;
    for i := 0 to |options|
      invariant valid <==> option.Some? && option.value in Ids(options)[..i]
    {
      assert Ids(options)[..i + 1] == Ids(options)[..i] + [options[i].id];
      if option == Some(options[i].id) {
        valid := true;
      }
    }
    assert Ids(options)[..|options|] == Ids(options);
  }

  /** What a call ends with: at most one document of its own put back, or six conflicts. */
  datatype Ending = Done(verdict: Verdict, at: nat) | OutOfTries

  const TRIES := 6

  /** ReviewAction: `found` are the documents its tries find, `lost` says which puts came
      too late. */
  method ReviewAction(found: seq<Document>, lost: seq<bool>, req: Request) returns (e: Ending)
    requires |found| == |lost| == TRIES
    ensures e.Done? ==>
      && e.at < TRIES && e.verdict == Act(found[e.at], req) && (e.verdict.Changed? ==> !lost[e.at])
      && forall i :: 0 <= i < e.at ==> Act(found[i], req).Changed? && lost[i]
    ensures e.OutOfTries? ==> forall i :: 0 <= i < TRIES ==> Act(found[i], req).Changed? && lost[i]
  {
    hide Act;
    for tries := 0 to TRIES
      invariant forall i :: 0 <= i < tries ==> Act(found[i], req).Changed? && lost[i]
    {
      var v := TryAction(found[tries], req);
      if !v.Changed? || !lost[tries] {
        return Done(v, tries);
      }
    }
    e := OutOfTries;
  }

  // ---------- What the client is shown ----------

  datatype Shown = Shown(
    version: nat, position: nat, totalCards: nat, completed: bool, currentCard: Option<Card>,
    feedback: Option<Response>, hint: Option<Id>, checked: nat, skipped: nat, hintUsed: nat, needsAnotherLook: nat)

  datatype Tally = Checked | Skipped | AnotherLook

  predicate Falls(r: Response, t: Tally) {
    match t
    case Checked => !r.skipped
    case Skipped => r.skipped
    case AnotherLook => r.needsAnotherLook
  }

  /** The cards among `keys` whose response falls under the tally. */
  function Of(responses: map<CardId, Response>, keys: set<CardId>, t: Tally): set<CardId>
    requires keys <= responses.Keys
  {
    set k | k in keys && Falls(responses[k], t)
  }

  lemma OneMore(responses: map<CardId, Response>, keys: set<CardId>, key: CardId, t: Tally)
    requires keys <= responses.Keys && key in responses && key !in keys
    ensures |Of(responses, keys + {key}, t)| == |Of(responses, keys, t)| + (if Falls(responses[key], t) then 1 else 0)
  {
    hide Falls;
    assert Of(responses, keys + {key}, t) == Of(responses, keys, t) + (if Falls(responses[key], t) then {key} else {});
  }

  /** public */
  method PublicState(d: Document) returns (s: Shown)
    ensures s.version == d.version && s.position == d.cursor + 1 && s.totalCards == |d.cards|
    ensures s.completed == (d.cursor >= |d.cards|)
    ensures s.checked == |Of(d.responses, d.responses.Keys, Checked)|
    ensures s.skipped == |Of(d.responses, d.responses.Keys, Skipped)|
    ensures s.needsAnotherLook == |Of(d.responses, d.responses.Keys, AnotherLook)|
    ensures s.hintUsed == |d.hints|
    ensures s.completed ==> s.currentCard == None && s.feedback == None && s.hint == None
    ensures !s.completed ==>
      var card := d.cards[d.cursor];
      && s.currentCard == Some(card)
      && s.feedback == (if card.id in d.responses then Some(d.responses[card.id]) else None)
      && s.hint == (if card.id in d.hints then Some(d.hints[card.id]) else None)
  {
    hide Of;
    var checked, skipped, again := 0, 0, 0;
    var rest := d.responses.Keys;
    ghost var seen: set<CardId> := {};
    NoneOf(d.responses);
    while rest != {}
      invariant seen !! rest && seen + rest == d.responses.Keys
      invariant checked == |Of(d.responses, seen, Checked)| && skipped == |Of(d.responses, seen, Skipped)|
      invariant again == |Of(d.responses, seen, AnotherLook)|
      decreases |rest|
    {
      var key :| key in rest;
      var r := d.responses[key];
      OneMore(d.responses, seen, key, Checked);
      OneMore(d.responses, seen, key, Skipped);
      OneMore(d.responses, seen, key, AnotherLook);
      if r.skipped {
        skipped := skipped + 1;
      } else {
        checked := checked + 1;
      }
      if r.needsAnotherLook {
        again := again + 1;
      }
      rest, seen := rest - {key}, seen + {key};
    }
    assert seen == d.responses.Keys;
    var completed := d.cursor >= |d.cards|;
    var current, feedback, hint := None, None, None;
    if !completed {
      var card := d.cards[d.cursor];
      current := Some(card);
      if card.id in d.responses {
        feedback := Some(d.responses[card.id]);
      }
      if card.id in d.hints {
        hint := Some(d.hints[card.id]);
      }
    }
    s := Shown(d.version, d.cursor + 1, |d.cards|, completed, current, feedback, hint, checked, skipped, |d.hints|,
      again);
  }

  lemma NoneOf(responses: map<CardId, Response>)
    ensures forall t :: |Of(responses, {}, t)| == 0
  {
    assert forall t :: Of(responses, {}, t) == {};
  }

  /** parseReview, without its limits on text. */
  predicate SoundShown(s: Shown) {
    && s.version <= 1000 && 1 <= s.position <= 7 && 1 <= s.totalCards <= 6
    && s.checked <= 6 && s.skipped <= 6 && s.hintUsed <= 6 && s.needsAnotherLook <= 6
    && s.completed == s.currentCard.None? && s.position <= s.totalCards + 1
    && (s.currentCard.Some? ==> |s.currentCard.value.options| == 4 && Distinct(Ids(s.currentCard.value.options)))
    && (s.feedback.Some? ==>
          && s.currentCard.Some? && s.feedback.value.cardId == s.currentCard.value.id
          && s.feedback.value.correctOptionId in Ids(s.currentCard.value.options))
  }

  // ---------- Invariant ----------

  predicate CardSound(c: Card) {
    |c.options| == 4 && Distinct(Ids(c.options)) && c.correctOptionId in Ids(c.options)
  }

  /** The reinforcements earned by wrong answers among the first k cards. */
  function Wrong(cards: seq<Card>, responses: map<CardId, Response>, k: nat): (r: seq<Card>)
    requires k <= |cards|
    ensures |r| <= k
  {
    if k == 0 then []
    else
      var c := cards[k - 1];
      Wrong(cards, responses, k - 1)
      + (if c.id in responses && !responses[c.id].skipped && !responses[c.id].correct then [Reinforcement(c)] else [])
  }

  function Least(a: nat, b: nat): nat {
    if a <= b then a else b
  }

  function CardIds(cards: seq<Card>): (r: seq<CardId>)
    ensures |r| == |cards|
  {
    seq(|cards|, i requires 0 <= i < |cards| => cards[i].id)
  }

  /** One to three cards, no two with the same id, each made from a question. */
  ghost predicate Originals(cards: seq<Card>) {
    && 1 <= |cards| <= 3
    && (forall i :: 0 <= i < |cards| ==> CardSound(cards[i]) && !cards[i].reinforcement && cards[i].id.OfQuestion?)
    && Distinct(CardIds(cards))
  }

  /** A response agrees with its card: it is right exactly when the card's correct option was
      selected and the card was not skipped, only a skip selects nothing, and it says whether
      the card had a hint. */
  ghost predicate ResponseSound(c: Card, r: Response, hinted: bool) {
    && r.cardId == c.id && r.correctOptionId == c.correctOptionId
    && (r.correct <==> !r.skipped && r.selected == Some(c.correctOptionId))
    && r.needsAnotherLook == !r.correct && r.hintUsed == hinted
    && (if r.skipped then r.selected.None? else r.selected.Some? && r.selected.value in Ids(c.options))
  }

  /** The deck is the originals and one reinforcement for each wrong original so far. */
  ghost predicate DeckSound(d: Document, originals: seq<Card>) {
    && Originals(originals)
    && d.cards == originals + Wrong(originals, d.responses, Least(|originals|, |d.responses|))
  }

  /** The responded cards are the first ones, and the current one is the first without a
      response or the one just answered. */
  ghost predicate ProgressSound(d: Document) {
    && |d.responses| <= |d.cards|
    && d.cursor <= |d.responses| <= d.cursor + 1
    && (forall id :: id in d.responses <==> id in CardIds(d.cards)[..|d.responses|])
    && (forall i :: 0 <= i < |d.responses| ==>
         && d.cards[i].id in d.responses
         && ResponseSound(d.cards[i], d.responses[d.cards[i].id], d.cards[i].id in d.hints))
  }

  ghost predicate CountsSound(d: Document) {
    && |d.intents| == |d.responses| + d.cursor
    && d.version == 1 + |d.intents| + |d.hints|
    && (forall id :: id in d.hints ==> id in CardIds(d.cards))
  }

  ghost predicate Sound(d: Document, originals: seq<Card>) {
    DeckSound(d, originals) && ProgressSound(d) && CountsSound(d)
  }
}
