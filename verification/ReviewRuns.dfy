/** What review sessions keep, whoever acts on them and in whatever order. */
module ReviewRuns {
  import opened Domain
  import opened Attempt
  import opened Store
  import opened Protocol
  import opened Review

  // ---------- The deck ----------

  lemma {:induction false} WrongSame(cards: seq<Card>, a: map<CardId, Response>, b: map<CardId, Response>, k: nat)
    requires k <= |cards|
    requires forall i :: 0 <= i < k ==> (cards[i].id in a <==> cards[i].id in b)
    requires forall i :: 0 <= i < k && cards[i].id in a ==> a[cards[i].id] == b[cards[i].id]
    ensures Wrong(cards, a, k) == Wrong(cards, b, k)
    decreases k
  {
    if k > 0 {
      WrongSame(cards, a, b, k - 1);
    }
  }

  /** Every reinforcement repeats one original. */
  lemma {:induction false} WrongCards(cards: seq<Card>, responses: map<CardId, Response>, k: nat, j: nat)
      returns (i: nat)
    requires k <= |cards| && j < |Wrong(cards, responses, k)|
    ensures i < k && Wrong(cards, responses, k)[j] == Reinforcement(cards[i])
    decreases k
  {
    var front := Wrong(cards, responses, k - 1);
    if j < |front| {
      i := WrongCards(cards, responses, k - 1, j);
    } else {
      i := k - 1;
    }
  }

  /** And no original is repeated twice. */
  lemma {:induction false} WrongDistinct(cards: seq<Card>, responses: map<CardId, Response>, k: nat)
    requires k <= |cards| && Distinct(CardIds(cards))
    ensures Distinct(CardIds(Wrong(cards, responses, k)))
    decreases k
  {
    if k > 0 {
      WrongDistinct(cards, responses, k - 1);
      var front := Wrong(cards, responses, k - 1);
      var ids := CardIds(front);
      forall j | 0 <= j < |front|
        ensures ids[j] != Again(cards[k - 1].id)
      {
        var i := WrongCards(cards, responses, k - 1, j);
        assert CardIds(cards)[i] != CardIds(cards)[k - 1];
      }
      var whole := Wrong(cards, responses, k);
      assert CardIds(whole) == ids || CardIds(whole) == ids + [Again(cards[k - 1].id)];
    }
  }

  lemma DeckFacts(d: Document, originals: seq<Card>)
    requires DeckSound(d, originals)
    ensures Distinct(CardIds(d.cards)) && 1 <= |originals| <= |d.cards| <= 2 * |originals| <= 6
    ensures forall i :: 0 <= i < |d.cards| ==> CardSound(d.cards[i])
    ensures forall i :: 0 <= i < |d.cards| ==> (d.cards[i].reinforcement <==> i >= |originals|)
    ensures forall i :: 0 <= i < |originals| ==> d.cards[i] == originals[i]
  {
    var n, k := |originals|, Least(|originals|, |d.responses|);
    var again := Wrong(originals, d.responses, k);
    WrongDistinct(originals, d.responses, k);
    forall j | 0 <= j < |again|
      ensures CardSound(again[j]) && again[j].reinforcement && again[j].id.Again?
    {
      var i := WrongCards(originals, d.responses, k, j);
    }
    var ids := CardIds(d.cards);
    forall i, j | 0 <= i < j < |d.cards|
      ensures ids[i] != ids[j]
    {
      if j < n {
        assert CardIds(originals)[i] != CardIds(originals)[j];
      } else if i >= n {
        assert CardIds(again)[i - n] != CardIds(again)[j - n];
      }
    }
  }

  lemma KeysOfPrefix(d: Document)
    requires ProgressSound(d) && Distinct(CardIds(d.cards))
    ensures forall i :: |d.responses| <= i < |d.cards| ==> d.cards[i].id !in d.responses
    ensures d.cursor < |d.cards| ==> (d.cards[d.cursor].id in d.responses <==> |d.responses| == d.cursor + 1)
  {
    var ids := CardIds(d.cards);
    forall i | |d.responses| <= i < |d.cards|
      ensures d.cards[i].id !in d.responses
    {
      assert forall k :: 0 <= k < |d.responses| ==> ids[k] != ids[i];
    }
    if |d.responses| == d.cursor + 1 {
      assert ids[..|d.responses|][d.cursor] == d.cards[d.cursor].id;
    }
  }

  // ---------- Answering ----------

  lemma OneMoreKey<K, V>(m: map<K, V>, k: K, v: V)
    requires k !in m
    ensures |m[k := v]| == |m| + 1
  {
    assert m[k := v].Keys == m.Keys + {k};
    assert |m[k := v].Keys| == |m[k := v]| && |m.Keys| == |m|;
  }

  /** A wrong answer to an original: the bound on cards never stops its reinforcement. */
  lemma OriginalAnswered(originals: seq<Card>, a: map<CardId, Response>, c: nat, r: Response, cards: seq<Card>)
    requires Originals(originals) && c < |originals| && originals[c].id !in a
    requires cards == originals + Wrong(originals, a, c)
    ensures
      var more := a[originals[c].id := r];
      Grown(cards, originals[c], r) == originals + Wrong(originals, more, c + 1)
  {
    var more := a[originals[c].id := r];
    forall i | 0 <= i < c
      ensures originals[i].id != originals[c].id
    {
      assert CardIds(originals)[i] != CardIds(originals)[c];
    }
    WrongSame(originals, a, more, c);
    assert |cards| < MAX_CARDS;
    var front := Wrong(originals, more, c);
    assert originals + (front + [Reinforcement(originals[c])]) == cards + [Reinforcement(originals[c])];
    assert originals + (front + []) == cards;
  }

  lemma AnswerKeepsDeck(d: Document, originals: seq<Card>, r: Response)
    requires Sound(d, originals) && d.cursor < |d.cards| && |d.responses| == d.cursor
    requires d.cards[d.cursor].id !in d.responses
    ensures
      var card := d.cards[d.cursor];
      var t := d.(responses := d.responses[card.id := r], cards := Grown(d.cards, card, r));
      DeckSound(t, originals) && d.cards <= t.cards
  {
    hide Wrong, CardSound, ProgressSound, CountsSound;
    var c, n := d.cursor, |originals|;
    var card := d.cards[c];
    DeckFacts(d, originals);
    OneMoreKey(d.responses, card.id, r);
    if c < n {
      OriginalAnswered(originals, d.responses, c, r, d.cards);
    } else {
      forall i | 0 <= i < n
        ensures originals[i].id != card.id
      {
        assert CardIds(d.cards)[i] != CardIds(d.cards)[c];
      }
      WrongSame(originals, d.responses, d.responses[card.id := r], n);
    }
  }

  lemma AnswerKeepsProgress(d: Document, t: Document, card: Card, r: Response)
    requires ProgressSound(d) && d.cursor < |d.cards| && |d.responses| == d.cursor && card == d.cards[d.cursor]
    requires card.id !in d.responses && Distinct(CardIds(t.cards)) && d.cards <= t.cards
    requires ResponseSound(card, r, card.id in d.hints) && t.hints == d.hints
    requires t.responses == d.responses[card.id := r] && t.cursor == d.cursor
    ensures ProgressSound(t)
  {
    hide ResponseSound, Distinct;
    var c := d.cursor;
    OneMoreKey(d.responses, card.id, r);
    var ids, more := CardIds(d.cards), CardIds(t.cards);
    assert more[..c + 1] == ids[..c] + [card.id];
    forall i | 0 <= i < |t.responses|
      ensures t.cards[i].id in t.responses
      ensures ResponseSound(t.cards[i], t.responses[t.cards[i].id], t.cards[i].id in t.hints)
    {
      if i < c {
        IdsDiffer(t.cards, i, c);
      }
    }
  }

  lemma IdsDiffer(cards: seq<Card>, i: nat, j: nat)
    requires Distinct(CardIds(cards)) && i < j < |cards|
    ensures cards[i].id != cards[j].id
  {
    assert CardIds(cards)[i] != CardIds(cards)[j];
  }

  lemma AnswerKeepsCounts(d: Document, t: Document, req: Request, card: Card, r: Response)
    requires CountsSound(d) && req.actionId !in d.intents && card.id !in d.responses && d.cards <= t.cards
    requires t.responses == d.responses[card.id := r] && t.cursor == d.cursor && t.hints == d.hints
    requires t.intents == d.intents[req.actionId := req] && t.version == d.version + 1
    ensures CountsSound(t)
  {
    OneMoreKey(d.responses, card.id, r);
    OneMoreKey(d.intents, req.actionId, req);
    forall id | id in d.hints
      ensures id in CardIds(t.cards)
    {
      var k :| 0 <= k < |d.cards| && CardIds(d.cards)[k] == id;
      assert CardIds(t.cards)[k] == id;
    }
  }

  lemma AnswerKeepsSound(d: Document, originals: seq<Card>, req: Request)
    requires Sound(d, originals) && Act(d, req).Changed? && req.operation.Answers?
    ensures Sound(Act(d, req).next, originals)
  {
    hide DeckSound, CountsSound, ProgressSound, CardIds, Grown;
    var card := d.cards[d.cursor];
    var r := Answered(card, req, card.id in d.hints);
    var t := Act(d, req).next;
    DeckFacts(d, originals);
    KeysOfPrefix(d);
    ProgressBounds(d);
    AnswerKeepsDeck(d, originals, r);
    var u := d.(responses := d.responses[card.id := r], cards := Grown(d.cards, card, r));
    SameDeck(u, t, originals);
    DeckFacts(t, originals);
    AnswerKeepsProgress(d, t, card, r);
    AnswerKeepsCounts(d, t, req, card, r);
  }

  lemma ProgressBounds(d: Document)
    requires ProgressSound(d)
    ensures d.cursor <= |d.responses| <= d.cursor + 1
  {
  }

  lemma SameDeck(d: Document, t: Document, originals: seq<Card>)
    requires t.cards == d.cards && t.responses == d.responses && DeckSound(d, originals)
    ensures DeckSound(t, originals)
  {
  }

  lemma AdvanceEffect(d: Document, req: Request)
    requires Act(d, req).Changed? && req.operation.Advance?
    ensures d.cursor < |d.cards| && d.cards[d.cursor].id in d.responses && req.actionId !in d.intents
    ensures Act(d, req).next
      == d.(cursor := d.cursor + 1, intents := d.intents[req.actionId := req], version := d.version + 1)
  {
  }

  lemma AdvanceKeepsSound(d: Document, originals: seq<Card>, req: Request)
    requires Sound(d, originals) && Act(d, req).Changed? && req.operation.Advance?
    ensures Sound(Act(d, req).next, originals)
  {
    hide DeckSound, CardSound, ResponseSound, Act, Wrong;
    AdvanceEffect(d, req);
    DeckFacts(d, originals);
    KeysOfPrefix(d);
    OneMoreKey(d.intents, req.actionId, req);
    SameDeck(d, Act(d, req).next, originals);
  }

  lemma HintKeepsSound(d: Document, originals: seq<Card>, cardId: CardId, artifact: Id)
    requires Sound(d, originals) && Hinted(d, cardId, artifact).Changed?
    ensures Sound(Hinted(d, cardId, artifact).next, originals)
  {
    hide DeckSound, ProgressSound, CountsSound, Hinted;
    var t := Hinted(d, cardId, artifact).next;
    HintEffect(d, cardId, artifact);
    SameDeck(d, t, originals);
    SameProgress(d, t);
    HintKeepsCounts(d, cardId, artifact);
  }

  lemma HintEffect(d: Document, cardId: CardId, artifact: Id)
    requires Hinted(d, cardId, artifact).Changed?
    ensures d.cursor < |d.cards| && d.cards[d.cursor].id == cardId && cardId !in d.hints && cardId !in d.responses
    ensures Hinted(d, cardId, artifact).next == d.(hints := d.hints[cardId := artifact], version := d.version + 1)
  {
  }

  lemma SameProgress(d: Document, t: Document)
    requires ProgressSound(d) && t.cards == d.cards && t.responses == d.responses && t.cursor == d.cursor
    requires forall id :: id in d.responses ==> (id in t.hints <==> id in d.hints)
    ensures ProgressSound(t)
  {
  }

  lemma HintKeepsCounts(d: Document, cardId: CardId, artifact: Id)
    requires CountsSound(d) && d.cursor < |d.cards| && d.cards[d.cursor].id == cardId && cardId !in d.hints
    ensures CountsSound(d.(hints := d.hints[cardId := artifact], version := d.version + 1))
  {
    OneMoreKey(d.hints, cardId, artifact);
    assert CardIds(d.cards)[d.cursor] == cardId;
  }

  /** Every accepted action keeps the document sound. */
  lemma ActKeepsSound(d: Document, originals: seq<Card>, req: Request)
    requires Sound(d, originals) && Act(d, req).Changed?
    ensures Sound(Act(d, req).next, originals)
    ensures |Act(d, req).next.intents| == |d.intents| + 1
  {
    hide Sound;
    OneMoreKey(d.intents, req.actionId, req);
    if req.operation.Answers? {
      AnswerKeepsSound(d, originals, req);
    } else {
      AdvanceKeepsSound(d, originals, req);
    }
  }

  lemma {:induction false} HintsBounded(hints: map<CardId, Id>, ids: seq<CardId>)
    requires forall id :: id in hints ==> id in ids
    ensures |hints| <= |ids|
  {
    DistinctSize(ids);
    assert hints.Keys <= Members(ids);
    SubsetSize(hints.Keys, Members(ids));
    assert |hints.Keys| == |hints|;
  }

  lemma Sizes(d: Document, originals: seq<Card>)
    requires Sound(d, originals)
    ensures 1 <= |d.cards| <= 6 && |d.intents| <= 2 * |d.cards| && |d.hints| <= 6 && d.version <= 19
  {
    DeckFacts(d, originals);
    HintsBounded(d.hints, CardIds(d.cards));
  }

  /** In a sound document no limit binds: at most 6 cards, at most 12 accepted actions in
      all, and the limit of 24 never refuses one. */
  lemma LimitsNeverBind(d: Document, originals: seq<Card>, req: Request)
    requires Sound(d, originals)
    ensures |d.cards| <= 6 && |d.intents| <= 2 * |d.cards| <= 12 && |d.hints| <= 6 && d.version <= 19
    ensures Act(d, req) != Refused(LimitReached)
    ensures d.cursor < |d.cards| && !d.cards[d.cursor].reinforcement ==>
      |d.cards| < MAX_CARDS || d.cards[d.cursor].id in d.responses
  {
    hide Act, DeckSound;
    Sizes(d, originals);
    DeckFacts(d, originals);
    KeysOfPrefix(d);
    RoomForIntents(d, req);
    if d.cursor < |d.cards| && !d.cards[d.cursor].reinforcement && d.cards[d.cursor].id !in d.responses {
      RoomForReinforcement(d, originals);
    }
  }

  lemma RoomForReinforcement(d: Document, originals: seq<Card>)
    requires DeckSound(d, originals) && |d.responses| < |originals|
    ensures |d.cards| < MAX_CARDS
  {
    hide Wrong, CardSound;
  }

  lemma RoomForIntents(d: Document, req: Request)
    requires |d.intents| < MAX_INTENTS
    ensures Act(d, req) != Refused(LimitReached)
  {
  }

  /** What is shown of a sound document is what the browser accepts. */
  method ShowSound(d: Document, ghost originals: seq<Card>) returns (s: Shown, accepted: bool)
    requires Sound(d, originals)
    ensures accepted && SoundShown(s) && s.totalCards == |d.cards|
  {
    hide Sound, Of, CardSound;
    s := PublicState(d);
    accepted := SoundShown(s);
    ShownIsSound(d, originals, s);
  }

  lemma CountedBounds(responses: map<CardId, Response>)
    ensures forall t :: |Of(responses, responses.Keys, t)| <= |responses|
  {
    assert |responses.Keys| == |responses|;
    forall t
      ensures |Of(responses, responses.Keys, t)| <= |responses|
    {
      SubsetSize(Of(responses, responses.Keys, t), responses.Keys);
    }
  }

  lemma ShownIsSound(d: Document, originals: seq<Card>, s: Shown)
    requires Sound(d, originals)
    requires s.version == d.version && s.position == d.cursor + 1 && s.totalCards == |d.cards|
    requires s.completed == (d.cursor >= |d.cards|) && s.hintUsed == |d.hints|
    requires s.checked == |Of(d.responses, d.responses.Keys, Checked)|
    requires s.skipped == |Of(d.responses, d.responses.Keys, Skipped)|
    requires s.needsAnotherLook == |Of(d.responses, d.responses.Keys, AnotherLook)|
    requires s.completed ==> s.currentCard == None && s.feedback == None
    requires !s.completed ==>
      && s.currentCard == Some(d.cards[d.cursor])
      && s.feedback == (if d.cards[d.cursor].id in d.responses then Some(d.responses[d.cards[d.cursor].id]) else None)
    ensures SoundShown(s)
  {
    hide Of, DeckSound;
    Sizes(d, originals);
    DeckFacts(d, originals);
    KeysOfPrefix(d);
    CountedBounds(d.responses);
  }

  // ---------- Starting ----------

  lemma {:induction false} ChosenSome(ordered: seq<Receipt>, all: bool, k: nat)
    requires k < |ordered| && (all || !ordered[k].correctness)
    ensures |Chosen(ordered, all)| > 0
    decreases |ordered|
  {
    if k < |ordered| - 1 {
      ChosenSome(ordered[..|ordered| - 1], all, k);
    }
  }

  lemma {:induction false} ChosenDistinct(ordered: seq<Receipt>, all: bool)
    requires Distinct(Asked(ordered))
    ensures Distinct(Asked(Chosen(ordered, all)))
    decreases |ordered|
  {
    if ordered != [] {
      var last := |ordered| - 1;
      var front := Chosen(ordered[..last], all);
      assert Asked(ordered[..last]) == Asked(ordered)[..last];
      ChosenDistinct(ordered[..last], all);
      forall j | 0 <= j < |front|
        ensures front[j].questionId != ordered[last].questionId
      {
        assert front[j] in ordered[..last];
        var k :| 0 <= k < last && ordered[..last][k] == front[j];
        assert Asked(ordered)[k] != Asked(ordered)[last];
      }
      var whole := Chosen(ordered, all);
      assert Asked(whole) == Asked(front) || Asked(whole) == Asked(front) + [ordered[last].questionId];
      assert forall j :: 0 <= j < |front| ==> Asked(front)[j] != ordered[last].questionId;
    }
  }

  lemma {:induction false} AllCorrect(rs: seq<Receipt>)
    requires forall k :: 0 <= k < |rs| ==> rs[k].correctness
    ensures CountCorrect(rs) == |rs|
    decreases |rs|
  {
    if rs != [] {
      AllCorrect(rs[..|rs| - 1]);
    }
  }

  /** Someone who may start gets a sound deck of one to three cards. */
  lemma StartIsSound(v: Learner, ordered: seq<Receipt>, extraPractice: bool, id: Id)
    requires SoundLearner(v) && Eligible(v, extraPractice) && Permutes(ordered, v.receipts)
    requires Distinct(Asked(ordered))
    ensures
      var chosen := Chosen(ordered, v.correctCount == v.totalQuestions);
      && 1 <= |chosen| <= 3
      && Sound(Started(id, v.public.quizId, v.public.epoch, chosen), Deck(chosen))
  {
    hide SoundPublic, SoundHistory, Ids, SoundQuestion;
    var all := v.correctCount == v.totalQuestions;
    var chosen := Chosen(ordered, all);
    PermutesMembers(ordered, v.receipts);
    assert |ordered| == v.totalQuestions;
    if !all {
      var k := SomeWrong(v.receipts);
      assert v.receipts[k] in ordered;
      var j :| 0 <= j < |ordered| && ordered[j] == v.receipts[k];
      ChosenSome(ordered, all, j);
    } else {
      ChosenSome(ordered, all, 0);
    }
    ChosenDistinct(ordered, all);
    forall i | 0 <= i < |chosen|
      ensures SoundReceipt(chosen[i])
    {
      assert chosen[i] in v.receipts;
    }
    DeckIsSound(chosen, id, v.public.quizId, v.public.epoch);
  }

  lemma SomeWrong(rs: seq<Receipt>) returns (k: nat)
    requires CountCorrect(rs) != |rs|
    ensures k < |rs| && !rs[k].correctness
  {
    if forall k :: 0 <= k < |rs| ==> rs[k].correctness {
      AllCorrect(rs);
    }
    k :| 0 <= k < |rs| && !rs[k].correctness;
  }

  lemma DeckIsSound(chosen: seq<Receipt>, id: Id, quizId: Id, epoch: Id)
    requires 1 <= |chosen| <= 3 && Distinct(Asked(chosen)) && forall i :: 0 <= i < |chosen| ==> SoundReceipt(chosen[i])
    ensures Sound(Started(id, quizId, epoch, chosen), Deck(chosen))
  {
    var d := Started(id, quizId, epoch, chosen);
    forall i, j | 0 <= i < j < |chosen|
      ensures CardIds(Deck(chosen))[i] != CardIds(Deck(chosen))[j]
    {
      assert Asked(chosen)[i] != Asked(chosen)[j];
    }
    assert d.cards == Deck(chosen) + [];
    assert CardIds(d.cards)[..0] == [];
  }

  // ---------- Many callers ----------

  /** The stored document, and what callers have computed from what they read. */
  datatype World = World(stored: Document, prepared: map<Id, (Document, Document)>)

  datatype Step =
    | Prepare(caller: Id, req: Request)
    | PrepareHint(caller: Id, cardId: CardId, artifact: Id)
    | PutBack(caller: Id)

  /** reviewCAS: the document is replaced only if it is still the one that was read. */
  function After(w: World, step: Step): World {
    match step
    case Prepare(caller, req) =>
      var v := Act(w.stored, req);
      if v.Changed? then w.(prepared := w.prepared[caller := (w.stored, v.next)]) else w
    case PrepareHint(caller, cardId, artifact) =>
      var v := Hinted(w.stored, cardId, artifact);
      if v.Changed? then w.(prepared := w.prepared[caller := (w.stored, v.next)]) else w
    case PutBack(caller) =>
      if caller !in w.prepared then w
      else
        var (before, next) := w.prepared[caller];
        World(if w.stored == before then next else w.stored, w.prepared - {caller})
  }

  /** `next` is what some request makes of `before`. */
  ghost predicate Made(before: Document, next: Document) {
    || (exists req :: Act(before, req) == Changed(next))
    || (exists cardId, artifact :: Hinted(before, cardId, artifact) == Changed(next))
  }

  ghost predicate WorldSound(w: World, originals: seq<Card>) {
    && Sound(w.stored, originals)
    && forall caller {:trigger Made(w.prepared[caller].0, w.prepared[caller].1)} :: caller in w.prepared ==>
         Made(w.prepared[caller].0, w.prepared[caller].1)
  }

  lemma MadeIsSound(before: Document, next: Document, originals: seq<Card>)
    requires Made(before, next) && Sound(before, originals)
    ensures Sound(next, originals) && next.version == before.version + 1
    ensures forall a :: a in before.intents ==> a in next.intents && next.intents[a] == before.intents[a]
    ensures forall k :: k in before.responses ==> k in next.responses && next.responses[k] == before.responses[k]
    ensures before.cards <= next.cards && before.cursor <= next.cursor
  {
    hide Sound;
    if req :| Act(before, req) == Changed(next) {
      ActKeepsSound(before, originals, req);
    } else {
      var cardId, artifact :| Hinted(before, cardId, artifact) == Changed(next);
      HintKeepsSound(before, originals, cardId, artifact);
    }
  }

  lemma StepKeepsWorld(w: World, originals: seq<Card>, step: Step)
    requires WorldSound(w, originals)
    ensures WorldSound(After(w, step), originals)
    ensures After(w, step).stored == w.stored || Made(w.stored, After(w, step).stored)
  {
    hide Sound, Act, Hinted;
    match step {
      case PutBack(caller) =>
        if caller in w.prepared && w.stored == w.prepared[caller].0 {
          MadeIsSound(w.stored, w.prepared[caller].1, originals);
        }
      case Prepare(caller, req) =>
        if Act(w.stored, req).Changed? {
          assert Made(w.stored, Act(w.stored, req).next);
        }
      case PrepareHint(caller, cardId, artifact) =>
        if Hinted(w.stored, cardId, artifact).Changed? {
          assert Made(w.stored, Hinted(w.stored, cardId, artifact).next);
        }
    }
  }

  function Run(w: World, steps: seq<Step>): World
    decreases |steps|
  {
    if steps == [] then w else Run(After(w, steps[0]), steps[1..])
  }

  /** `t` is a later document of the same session. */
  ghost predicate Later(d: Document, t: Document) {
    && d.version <= t.version && (d.version == t.version ==> t == d)
    && (forall a :: a in d.intents ==> a in t.intents && t.intents[a] == d.intents[a])
    && (forall k :: k in d.responses ==> k in t.responses && t.responses[k] == d.responses[k])
    && d.cards <= t.cards && d.cursor <= t.cursor && t.epoch == d.epoch
  }

  lemma MadeEpoch(before: Document, next: Document)
    requires Made(before, next)
    ensures next.epoch == before.epoch
  {
  }

  /** However many callers interleave, the stored document stays sound and only ever
      grows: responses, intents and cards stay, and the cursor does not go back. */
  lemma {:induction false} RunKeepsSound(w: World, originals: seq<Card>, steps: seq<Step>)
    requires WorldSound(w, originals)
    ensures WorldSound(Run(w, steps), originals) && Later(w.stored, Run(w, steps).stored)
    decreases |steps|
  {
    hide Sound, Made, Act, Hinted, After;
    if steps != [] {
      var t := After(w, steps[0]);
      StepKeepsWorld(w, originals, steps[0]);
      if t.stored != w.stored {
        MadeIsSound(w.stored, t.stored, originals);
        MadeEpoch(w.stored, t.stored);
      }
      RunKeepsSound(t, originals, steps[1..]);
    }
  }

  /** A committed action is never applied twice: in every later document the same request
      is a replay and the same id with another request a conflict. */
  lemma CommittedActionReplays(w: World, originals: seq<Card>, steps: seq<Step>, req: Request, again: Request)
    requires WorldSound(w, originals) && req.actionId in w.stored.intents && w.stored.intents[req.actionId] == req
    requires again.actionId == req.actionId && again.epoch == w.stored.epoch
    ensures Act(Run(w, steps).stored, again) == if again == req then Replayed else Refused(IdempotencyConflict)
  {
    hide Sound, Run;
    RunKeepsSound(w, originals, steps);
  }

  /** Over a whole session at most twelve actions are accepted. */
  lemma AtMostTwelveActions(w: World, originals: seq<Card>, steps: seq<Step>)
    requires WorldSound(w, originals)
    ensures |Run(w, steps).stored.intents| <= 2 * |Run(w, steps).stored.cards| <= 12
  {
    hide Sound, Run, Made, Act;
    RunKeepsSound(w, originals, steps);
    Sizes(Run(w, steps).stored, originals);
  }
}
