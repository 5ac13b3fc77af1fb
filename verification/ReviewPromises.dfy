/** What a review asks again, how it grades, and what it shows: exactly, and over whole runs. */
module ReviewPromises {
  import opened Domain
  import opened Attempt
  import opened Store
  import opened Protocol
  import opened Review
  import opened ReviewRuns

  // ---------- Which questions are asked again ----------

  /** The receipts a review is about: the wrong ones, or any when all were right. */
  predicate Counts(r: Receipt, all: bool) { all || !r.correctness }

  function CountsBefore(ordered: seq<Receipt>, all: bool, k: nat): (n: nat)
    requires k <= |ordered|
    ensures n <= k
  {
    if k == 0 then 0 else CountsBefore(ordered, all, k - 1) + (if Counts(ordered[k - 1], all) then 1 else 0)
  }

  lemma {:induction false} CountsBeforePrefix(ordered: seq<Receipt>, all: bool, n: nat, k: nat)
    requires k <= n <= |ordered|
    ensures CountsBefore(ordered[..n], all, k) == CountsBefore(ordered, all, k)
    decreases k
  {
    if k > 0 {
      CountsBeforePrefix(ordered, all, n, k - 1);
    }
  }

  lemma {:induction false} ChosenMany(ordered: seq<Receipt>, all: bool)
    ensures |Chosen(ordered, all)| ==
      if CountsBefore(ordered, all, |ordered|) < 3 then CountsBefore(ordered, all, |ordered|) else 3
    decreases |ordered|
  {
    if ordered != [] {
      var last := |ordered| - 1;
      ChosenMany(ordered[..last], all);
      CountsBeforePrefix(ordered, all, last, last);
    }
  }

  lemma LastIsNew(ordered: seq<Receipt>)
    requires Distinct(Asked(ordered)) && ordered != []
    ensures
      var last := |ordered| - 1;
      && Distinct(Asked(ordered[..last])) && ordered[last] !in ordered[..last]
      && forall k :: 0 <= k < last ==> ordered[k] != ordered[last]
  {
    var last := |ordered| - 1;
    assert Asked(ordered[..last]) == Asked(ordered)[..last];
    forall i | 0 <= i < last
      ensures ordered[..last][i] != ordered[last]
    {
      assert Asked(ordered)[i] != Asked(ordered)[last];
    }
  }

  /** Receipt k is chosen exactly when it counts and fewer than three before it do. */
  lemma {:induction false} ChosenExactly(ordered: seq<Receipt>, all: bool, k: nat)
    requires Distinct(Asked(ordered)) && k < |ordered|
    ensures ordered[k] in Chosen(ordered, all) <==> Counts(ordered[k], all) && CountsBefore(ordered, all, k) < 3
    decreases |ordered|
  {
    hide Distinct, Asked, CountsBefore;
    var last := |ordered| - 1;
    var front := ordered[..last];
    LastIsNew(ordered);
    ChosenMany(front, all);
    CountsBeforePrefix(ordered, all, last, last);
    if k < last {
      ChosenExactly(front, all, k);
      CountsBeforePrefix(ordered, all, last, k);
    }
  }

  /** The chosen receipts stay in order of question number. */
  lemma {:induction false} ChosenInOrder(ordered: seq<Receipt>, all: bool)
    requires InNumberOrder(ordered)
    ensures InNumberOrder(Chosen(ordered, all))
    decreases |ordered|
  {
    if ordered != [] {
      var last := |ordered| - 1;
      var front := Chosen(ordered[..last], all);
      ChosenInOrder(ordered[..last], all);
      forall i | 0 <= i < |front|
        ensures front[i].questionNumber <= ordered[last].questionNumber
      {
        assert front[i] in ordered[..last];
        var k :| 0 <= k < last && ordered[..last][k] == front[i];
      }
    }
  }

  /** Card i of a new review asks the question of receipt i again: the same options, and the
      key that the receipt was graded by. */
  lemma DeckIsOfReceipts(id: Id, quizId: Id, epoch: Id, chosen: seq<Receipt>, i: nat)
    requires i < |chosen|
    ensures
      var d := Started(id, quizId, epoch, chosen);
      && |d.cards| == |chosen| && d.cursor == 0 && d.responses == map[] && d.epoch == epoch
      && d.cards[i].questionId == chosen[i].questionId && d.cards[i].options == chosen[i].question.options
      && d.cards[i].correctOptionId == chosen[i].correctOptionId && !d.cards[i].reinforcement
  {
  }

  /** Who may start a review: someone who has answered everything, and has something wrong or
      asks for extra practice. */
  lemma EligibleExactly(v: Learner, extraPractice: bool)
    requires SoundLearner(v)
    ensures Eligible(v, extraPractice) <==>
      v.answeredCount == v.totalQuestions && (extraPractice || exists r :: r in v.receipts && !r.correctness)
  {
    hide SoundPublic, SoundHistory, SoundQuestion, Ids;
    if v.answeredCount == v.totalQuestions {
      assert |v.receipts| == v.totalQuestions;
      if CountCorrect(v.receipts) != |v.receipts| {
        var k := SomeWrong(v.receipts);
        assert v.receipts[k] in v.receipts;
      } else {
        AllRight(v.receipts);
      }
    }
  }

  lemma {:induction false} AllRight(rs: seq<Receipt>)
    requires CountCorrect(rs) == |rs|
    ensures forall r :: r in rs ==> r.correctness
    decreases |rs|
  {
    if rs != [] {
      var last := |rs| - 1;
      AllRight(rs[..last]);
      assert rs == rs[..last] + [rs[last]];
    }
  }

  // ---------- What an action is told ----------

  /** The action names the card that is asked now. */
  predicate OnTop(d: Document, req: Request) {
    d.cursor < |d.cards| && d.cards[d.cursor].id == req.cardId
  }

  /** One of the card's options is selected, or the card is skipped without one. */
  predicate WellFormed(d: Document, req: Request)
    requires OnTop(d, req)
  {
    if req.skip then req.option.None?
    else req.option.Some? && exists c :: c in d.cards[d.cursor].options && c.id == req.option.value
  }

  /** A new action on the card asked: an answer to it, or leaving it once it is answered. */
  predicate Takes(d: Document, req: Request) {
    && req.epoch == d.epoch && req.actionId !in d.intents && OnTop(d, req)
    && match req.operation
       case Answers => req.cardId !in d.responses && WellFormed(d, req)
       case Advance => req.cardId in d.responses && req.option.None? && !req.skip
       case Unknown => false
  }

  ghost predicate ActionTold(d: Document, req: Request, v: Verdict) {
    var here := req.epoch == d.epoch && req.actionId !in d.intents;
    var answered := req.cardId in d.responses;
    && (v == Refused(EpochMismatch) <==> req.epoch != d.epoch)
    && (v == Refused(IdempotencyConflict) <==>
          req.epoch == d.epoch && req.actionId in d.intents && d.intents[req.actionId] != req)
    && (v == Replayed <==>
          || (req.epoch == d.epoch && req.actionId in d.intents && d.intents[req.actionId] == req)
          || (here && answered && (!OnTop(d, req) || req.operation.Answers?)))
    && (v.Changed? <==> Takes(d, req))
    && (v == Refused(NotFound) <==> here && OnTop(d, req) && req.operation.Unknown?)
    && (v == Refused(Invalid) <==>
          here && OnTop(d, req) && req.operation.Answers? && !answered && req.skip && req.option.Some?)
    && (v == Refused(Code.InvalidOption) <==>
          here && OnTop(d, req) && req.operation.Answers? && !answered && !req.skip && !WellFormed(d, req))
    && v != Refused(LimitReached)
  }

  lemma OptionsOf(options: seq<Choice>, id: Id)
    ensures id in Ids(options) <==> exists c :: c in options && c.id == id
  {
    if c :| c in options && c.id == id {
      var k :| 0 <= k < |options| && options[k] == c;
      assert Ids(options)[k] == id;
    }
  }

  /** What an action on a sound document is told, in each of the cases there are. */
  lemma ActionIsTold(d: Document, originals: seq<Card>, req: Request)
    requires Sound(d, originals)
    ensures ActionTold(d, req, Act(d, req))
  {
    hide Sound, Ids, Grown, Answered;
    LimitsNeverBind(d, originals, req);
    if OnTop(d, req) && req.option.Some? {
      OptionsOf(d.cards[d.cursor].options, req.option.value);
    }
  }

  /** The key of the card was selected, and the card not skipped. */
  predicate RightAnswer(card: Card, req: Request) {
    !req.skip && req.option == Some(card.correctOptionId)
  }

  /** How an answer is graded and what it does to the deck: it is right exactly when it selects
      the card's key and does not skip, and exactly a wrong answer to an original that is not
      skipped adds the card once more at the end, with its options and key. */
  lemma AnswerIsGraded(d: Document, originals: seq<Card>, req: Request)
    requires Sound(d, originals) && req.operation.Answers? && Act(d, req).Changed?
    ensures
      var t, card := Act(d, req).next, d.cards[d.cursor];
      && OnTop(d, req) && req.cardId !in d.responses && req.cardId in t.responses
      && t.responses == d.responses[req.cardId := t.responses[req.cardId]]
      && var r := t.responses[req.cardId];
      && r.cardId == req.cardId && r.selected == req.option && r.skipped == req.skip
      && (r.correct <==> RightAnswer(card, req)) && r.correctOptionId == card.correctOptionId
      && (r.hintUsed <==> req.cardId in d.hints) && (r.needsAnotherLook <==> !RightAnswer(card, req))
      && t.cards ==
           (if !req.skip && !RightAnswer(card, req) && d.cursor < |originals|
            then d.cards + [card.(id := Again(card.id), reinforcement := true)] else d.cards)
      && t == d.(responses := t.responses, cards := t.cards, intents := d.intents[req.actionId := req],
                 version := d.version + 1)
  {
    hide Sound, Ids, DeckSound;
    SoundDeck(d, originals);
    DeckFacts(d, originals);
    LimitsNeverBind(d, originals, req);
  }

  lemma SoundDeck(d: Document, originals: seq<Card>)
    requires Sound(d, originals)
    ensures DeckSound(d, originals)
  {
    hide DeckSound, ProgressSound, CountsSound;
  }

  /** Leaving an answered card moves on to the next one and does nothing else. */
  lemma AdvanceMovesOn(d: Document, req: Request)
    requires req.operation.Advance? && Act(d, req).Changed?
    ensures Act(d, req).next
      == d.(cursor := d.cursor + 1, intents := d.intents[req.actionId := req], version := d.version + 1)
  {
  }

  // ---------- A review can be finished ----------

  lemma Unused(intents: map<Id, Request>) returns (a: Id)
    ensures a !in intents
  {
    a := 0;
    var left := intents.Keys;
    while a in intents
      invariant left == set x | x in intents && x >= a
      decreases |left|
    {
      var rest := set x | x in intents && x >= a + 1;
      assert left == rest + {a} && a !in rest;
      left, a := rest, a + 1;
    }
  }

  /** The document after requests that are all taken; None when one of them is not. */
  function AfterAll(d: Document, reqs: seq<Request>): Option<Document>
    decreases |reqs|
  {
    if reqs == [] then Some(d)
    else if Act(d, reqs[0]).Changed? then AfterAll(Act(d, reqs[0]).next, reqs[1..])
    else None
  }

  /** Skipping the card asked is taken when it has no response, and leaving it when it has one. */
  lemma CanGoOn(d: Document, originals: seq<Card>) returns (req: Request)
    requires Sound(d, originals) && d.cursor < |d.cards|
    ensures Act(d, req).Changed?
    ensures
      var t := Act(d, req).next;
      && Sound(t, originals) && t.cards == d.cards
      && (t.cursor == d.cursor + 1
          || (t.cursor == d.cursor && |d.responses| == d.cursor && |t.responses| == d.cursor + 1))
  {
    hide Act, DeckSound, CardSound, Wrong;
    var a := Unused(d.intents);
    var card := d.cards[d.cursor];
    DeckFacts(d, originals);
    KeysOfPrefix(d);
    req := Request(card.id, if card.id in d.responses then Advance else Answers, d.epoch, a, None,
      card.id !in d.responses);
    ActionIsTold(d, originals, req);
    ActKeepsSound(d, originals, req);
    if card.id in d.responses {
      AdvanceMovesOn(d, req);
    } else {
      AnswerIsGraded(d, originals, req);
      OneMoreKey(d.responses, card.id, Act(d, req).next.responses[card.id]);
    }
  }

  function ToDo(d: Document): int {
    2 * (|d.cards| - d.cursor) + (if |d.responses| == d.cursor then 1 else 0)
  }

  /** From every document that can come up there are requests, all of which are taken, that bring
      the review to its end: nothing that callers do leaves it stuck. */
  lemma {:induction false} CanBeFinished(d: Document, originals: seq<Card>) returns (reqs: seq<Request>)
    requires Sound(d, originals)
    ensures AfterAll(d, reqs).Some? && AfterAll(d, reqs).value.cursor == |AfterAll(d, reqs).value.cards|
    decreases ToDo(d)
  {
    hide Act, DeckSound, CountsSound, CardSound;
    reqs := [];
    if d.cursor < |d.cards| {
      var req := CanGoOn(d, originals);
      var rest := CanBeFinished(Act(d, req).next, originals);
      reqs := [req] + rest;
      assert reqs[1..] == rest;
    }
  }

  // ---------- Over runs ----------

  /** Card i repeats an original, with its options and its key. */
  predicate Repeats(card: Card, original: Card) {
    && card.questionId == original.questionId && card.options == original.options
    && card.correctOptionId == original.correctOptionId
  }

  lemma CardRepeats(d: Document, originals: seq<Card>, i: nat) returns (j: nat)
    requires DeckSound(d, originals) && i < |d.cards|
    ensures j < |originals| && Repeats(d.cards[i], originals[j]) && (i < |originals| ==> j == i)
  {
    if i < |originals| {
      j := i;
    } else {
      j := WrongCards(originals, d.responses, Least(|originals|, |d.responses|), i - |originals|);
    }
  }

  /** However many callers interleave, every response in the stored document was graded by the
      key of an original: right exactly when that key was selected and the card not skipped. */
  lemma EveryResponseIsGraded(w: World, originals: seq<Card>, steps: seq<Step>, i: nat) returns (j: nat)
    requires WorldSound(w, originals) && i < |Run(w, steps).stored.responses|
    ensures
      var t := Run(w, steps).stored;
      && i < |t.cards| && j < |originals| && Repeats(t.cards[i], originals[j]) && t.cards[i].id in t.responses
      && var r := t.responses[t.cards[i].id];
      && r.correctOptionId == originals[j].correctOptionId
      && (r.correct <==> !r.skipped && r.selected == Some(originals[j].correctOptionId))
      && (r.hintUsed <==> t.cards[i].id in t.hints)
  {
    hide Run, Made, Act, Hinted, DeckSound, CountsSound;
    RunKeepsSound(w, originals, steps);
    j := CardRepeats(Run(w, steps).stored, originals, i);
  }

  lemma {:induction false} WrongIsListed(cards: seq<Card>, responses: map<CardId, Response>, k: nat, i: nat)
    requires i < k <= |cards| && cards[i].id in responses
    requires !responses[cards[i].id].skipped && !responses[cards[i].id].correct
    ensures Reinforcement(cards[i]) in Wrong(cards, responses, k)
    decreases k
  {
    if i < k - 1 {
      WrongIsListed(cards, responses, k - 1, i);
    }
  }

  lemma {:induction false} ListedIsWrong(cards: seq<Card>, responses: map<CardId, Response>, k: nat, id: CardId)
    requires k <= |cards| && Distinct(CardIds(cards))
    requires exists c :: c in Wrong(cards, responses, k) && c.id == Again(id)
    ensures id in responses && !responses[id].skipped && !responses[id].correct
    decreases k
  {
    var c :| c in Wrong(cards, responses, k) && c.id == Again(id);
    if k > 0 && c in Wrong(cards, responses, k - 1) {
      ListedIsWrong(cards, responses, k - 1, id);
    }
  }

  /** In every document of every run an original is asked again exactly when it was answered
      with a wrong option. */
  lemma AskedAgainExactly(w: World, originals: seq<Card>, steps: seq<Step>, i: nat)
    requires WorldSound(w, originals) && i < |originals|
    ensures
      var t, id := Run(w, steps).stored, originals[i].id;
      (exists c :: c in t.cards && c.id == Again(id)) <==>
        id in t.responses && !t.responses[id].skipped && t.responses[id].selected != Some(originals[i].correctOptionId)
  {
    hide Run, Made, Act, Hinted, CountsSound, Wrong, CardSound;
    RunKeepsSound(w, originals, steps);
    AgainExactly(Run(w, steps).stored, originals, i);
  }

  lemma AgainExactly(d: Document, originals: seq<Card>, i: nat)
    requires Sound(d, originals) && i < |originals|
    ensures
      var id := originals[i].id;
      (exists c :: c in d.cards && c.id == Again(id)) <==>
        id in d.responses && !d.responses[id].skipped && d.responses[id].selected != Some(originals[i].correctOptionId)
  {
    hide CountsSound, Wrong, CardSound;
    var id, k := originals[i].id, Least(|originals|, |d.responses|);
    DeckFacts(d, originals);
    if c :| c in d.cards && c.id == Again(id) {
      assert c !in originals;
      assert c in Wrong(originals, d.responses, k);
      ListedIsWrong(originals, d.responses, k, id);
      GradedAs(d, originals, i);
    }
    if id in d.responses && !d.responses[id].skipped && d.responses[id].selected != Some(originals[i].correctOptionId) {
      GradedAs(d, originals, i);
      WrongIsListed(originals, d.responses, k, i);
      assert Reinforcement(originals[i]) in d.cards;
    }
  }

  /** The response to original i, if there is one, is among the first ones and graded by it. */
  lemma GradedAs(d: Document, originals: seq<Card>, i: nat)
    requires Sound(d, originals) && i < |originals| && originals[i].id in d.responses
    ensures i < |d.responses|
    ensures
      var r := d.responses[originals[i].id];
      r.correct <==> !r.skipped && r.selected == Some(originals[i].correctOptionId)
  {
    hide CountsSound, Wrong, CardSound, DeckSound;
    DeckFacts(d, originals);
    KeysOfPrefix(d);
  }

  /** Steps of other callers. */
  predicate OfOthers(steps: seq<Step>, caller: Id) {
    forall s :: s in steps ==> s.caller != caller
  }

  lemma {:induction false} PreparedStays(w: World, steps: seq<Step>, caller: Id)
    requires OfOthers(steps, caller) && caller in w.prepared
    ensures caller in Run(w, steps).prepared && Run(w, steps).prepared[caller] == w.prepared[caller]
    decreases |steps|
  {
    hide Act, Hinted;
    if steps != [] {
      assert steps[0] in steps && forall s :: s in steps[1..] ==> s in steps;
      PreparedStays(After(w, steps[0]), steps[1..], caller);
    }
  }

  /** A call that prepares a document and puts it back after any steps of others: the document
      is kept exactly when the stored one is still the one that was read; otherwise the stored
      one stays. */
  lemma PutBackExactly(w: World, req: Request, caller: Id, steps: seq<Step>)
    requires Act(w.stored, req).Changed? && OfOthers(steps, caller)
    ensures
      var u := Run(After(w, Prepare(caller, req)), steps);
      After(u, PutBack(caller)).stored == if u.stored == w.stored then Act(w.stored, req).next else u.stored
  {
    hide Act, Hinted, Run;
    PreparedStays(After(w, Prepare(caller, req)), steps, caller);
  }

  /** A hint that is prepared and put back without disturbance is kept exactly for the card
      asked, before its answer, when it has none yet. */
  lemma HintIsKept(w: World, caller: Id, cardId: CardId, artifact: Id)
    requires caller !in w.prepared
    ensures
      var d, t := w.stored, After(After(w, PrepareHint(caller, cardId, artifact)), PutBack(caller)).stored;
      t == if d.cursor < |d.cards| && d.cards[d.cursor].id == cardId && cardId !in d.responses && cardId !in d.hints
        then d.(hints := d.hints[cardId := artifact], version := d.version + 1) else d
  {
  }

  // ---------- Counts that are shown ----------

  /** Every response is counted once as checked or skipped, and the cards that need another look
      are those that were not answered right. */
  lemma TalliesTell(d: Document, originals: seq<Card>)
    requires Sound(d, originals)
    ensures
      var rs := d.responses;
      && |Of(rs, rs.Keys, Checked)| + |Of(rs, rs.Keys, Skipped)| == |rs|
      && Of(rs, rs.Keys, Skipped) == (set k | k in rs && rs[k].skipped)
      && Of(rs, rs.Keys, AnotherLook) == (set k | k in rs && !rs[k].correct)
  {
    hide Sound;
    var rs := d.responses;
    CheckedOrSkipped(rs);
    forall k | k in rs
      ensures rs[k].needsAnotherLook == !rs[k].correct
    {
      LookIsWrong(d, originals, k);
    }
  }

  lemma CheckedOrSkipped(rs: map<CardId, Response>)
    ensures |Of(rs, rs.Keys, Checked)| + |Of(rs, rs.Keys, Skipped)| == |rs|
  {
    var checked, skipped := Of(rs, rs.Keys, Checked), Of(rs, rs.Keys, Skipped);
    assert checked !! skipped && checked + skipped == rs.Keys;
    assert |rs.Keys| == |rs|;
  }

  lemma LookIsWrong(d: Document, originals: seq<Card>, k: CardId)
    requires Sound(d, originals) && k in d.responses
    ensures d.responses[k].needsAnotherLook == !d.responses[k].correct
  {
    hide DeckSound, CountsSound;
    var i :| 0 <= i < |d.responses| && CardIds(d.cards)[..|d.responses|][i] == k;
    assert d.cards[i].id == k;
  }
}
