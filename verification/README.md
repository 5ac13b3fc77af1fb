# Verified model of the vocabulary quiz service

A live vocabulary quiz: learners join a room, answer questions in an order of their own
against a clock, and watch a shared leaderboard. The parts modelled here are those whose
state is hard to get right: the Redis script that is the only writer of a room, the
browser client that must never show a result the server did not commit, the hub that
pushes standings, the gateway and the limiters in front of a language model, and the
documents instructors and learners change optimistically.

`dafny verify dfyconfig.toml` checks everything.

## How the parts fit together

- `Domain`, `Attempt`, `Standings`: quizzes, attempt plans (shuffling, the two plan
  validators, presentation), and the order of a leaderboard.
- `Room` says what one run of the script does to the seven stored maps; `Script` is the
  script itself, an object whose methods loop over and write those maps, proved equal to
  it. `RoomInvariant` and `RoomSteps` hold the inductive invariant: score, count, cursor,
  version and requests are all functions of the receipts. `RoomRuns`, `RoomTiming` and
  `RoomUpgrade` are about whole runs: replay, timed awards, resets, the upgrade;
  `RoomReplies` says exactly which reply each command gets, and what the replies add up to.
- `Store` turns a script reply into a learner's state, `Protocol` is the browser's
  acceptance check, `Acceptance` proves that the first always satisfies the second, and
  `Snapshots` says what the state tells in the room's own terms.
- `Client` says what each stretch of client code between two awaits does,
  `QuizMachine` is the client object proved to do it, `ClientInvariant` what every
  action keeps, `ClientPromises` what each action does and when. `EndToEnd` puts client,
  network, server, reloads and resets together: a response is anything the server said at
  any moment of its run, so loss, delay, repetition and reordering are all covered.
  `EpochOrder` and `EpochStory` say exactly when the epoch on screen can go back, and show a
  run in which it does; `SelectionRuns` follows a submitted option back to the learner's
  choice.
- `Hub`, `HubSteps`, `HubPromises`, `HubProgress`, `HubMachine`: the dirty/refreshing
  protocol in small steps, for every interleaving.
- `Cache`, `Budget`, `Gateway`, `GatewaySteps`, `GatewayRuns`, `GatewayPromises`,
  `GatewayProgress`, `GatewayMachine`, `Limiter`: the recency cache, the fixed windows, single
  flights, what holds over their runs, what callers are told and given, the token bucket.
- `Review`, `ReviewRuns`, `ReviewPromises`, `Drafts`, `DraftRuns`, `DraftPromises`: review
  decks, drafts and published definitions under compare-and-set by any number of callers,
  how answers are graded, and what a published quiz asks.

Methods over object fields follow the program; the functions they are proved against
carry the invariants and the theorems about runs.

## Assumptions

- Epochs and submission ids are newly drawn and never repeat; hashes and encodings are
  injective; participant ids hold no colon (`Domain.FieldInjective`).
- A served quiz has 4 to 8 questions with distinct ids, four distinct options each and a
  duration of 1 to 120 seconds (`Domain.LiveQuiz`); published quizzes are proved to be
  such (`DraftRuns.PublishedIsLive`).
- One run of a script is atomic. Redis time leaves room for a deadline below 2^53.
- The session identity is fixed between joins, and a tab's storage is changed by its own
  page only.
- Times given to the limiter and the budgets do not go back.

## Where the code does less than one might expect

- The limiter's sweep forgets a bucket after two idle minutes, which is harmless only if
  two minutes refill it. The configuration does not demand that; `Limiter.BoundedExactly`
  gives the exact condition for every rate and burst, whole or not.
- The upgrade loop marks a finished plan with the number 8 whatever the number of
  questions, so the script would refuse a room with fewer questions and a finished member
  (`RoomUpgrade.UpgradeCondition`). The program never gets there: only the quizzes it was
  started with are seeded, and it starts only with quizzes of 8 questions
  (backend/internal/store/store.go:48-51).
- The epoch a client shows may go back. Private reads overlap, nothing orders their
  responses, and versions are compared only within an epoch; the read made after a refused
  clock even takes its sequence number only when it returns
  (frontend/src/lib/quiz-machine.ts:255-262, 380-388, 446-447). `EpochStory.EpochCanGoBack`
  is such a run, for any quiz, member and epochs and for both kinds of read. It happens
  exactly when two reads of the current generation that are not ignored were served on
  either side of a reset and taken in the other order (`EpochOrder.EpochGoesBackExactly`).
  Such reads overlap, so a client that begins each read after the one before it has
  arrived never returns to an epoch it left (`EpochOrder.OneAtATimeNeverReturns`).
- The hub may tell a socket of the current epoch to reset: a worker reads, the room is
  reset, the socket registers, and the worker delivers. `HubProgress.NewcomerIsReset` is
  such a run; it happens exactly when the delivered read succeeded and predates the reset
  (`HubProgress.NewcomerIsResetExactly`). Serve then closes that socket.

A cache put that is too large returns early and would leave an older entry for its key
(`Cache.HitIsLastPutUnlessOversized`). That is a remark about the cache alone: the gateway
puts a key only when its cache does not hold it, so there a hit is always the latest data
(`GatewayRuns.HitIsLatestWanted`).

## Model

| member | source | states |
|---|---|---|
| Attempt.ShuffleKeepsMembers | backend/internal/domain/attempt.go:56-68 | a shuffle keeps every id, with its multiplicity |
| Attempt.ShuffleReachesEveryOrder | backend/internal/domain/attempt.go:56-68 | every order of the ids comes out of some draws |
| Attempt.ShuffleTellsDrawsApart | backend/internal/domain/attempt.go:56-68 | of distinct ids different draws make different orders: with the row above, every order comes out of exactly one choice of draws, none is likelier than another |
| Attempt.Shuffle | backend/internal/domain/attempt.go:56-68 | the in-place loop succeeds exactly when every draw is in range, consumes n-1 draws, and leaves the order those draws determine |
| Attempt.NewAttemptPlan | backend/internal/domain/attempt.go:70-87 | a plan is drawn exactly when all draws succeed; it is the plan the draws determine and always passes Validate |
| Attempt.EveryPlanCanBeDrawn | backend/internal/domain/attempt.go:70-87 | each plan that fits the quiz is drawn by some source: no order of questions or options is out of reach |
| Attempt.Validate | backend/internal/domain/attempt.go:89-112 | the Go check accepts exactly the plans that permute the questions and each option list of the quiz |
| Attempt.ValidatePlan | backend/internal/store/transition.lua:21-42 | the script's check accepts exactly the same plans, read off the stored manifest, although it only compares lengths and strikes ids off |
| Attempt.CollectedIsManifest | backend/internal/store/published.go:59-68 | the manifest built by appending lists each question's options, for quizzes with distinct questions |
| Attempt.Manifest | backend/internal/store/published.go:59-68 | the appending loops give the manifest both validators read |
| Attempt.PresentedWhole | backend/internal/domain/attempt.go:114-126 | under a fitting plan a question is shown with its own prompt and each of its four options once, in the plan's order, the correct one among them, with its timing and its public pronunciation |
| Attempt.Present | backend/internal/domain/attempt.go:114-126 | the loops present the question in the plan's order |
| Attempt.TaughtQuestionIsPresented | backend/internal/domain/attempt.go:131-139 | teaching a receipt that holds the rearranged question gives exactly what was shown and the vocabulary, and changes nothing else; teaching twice is teaching once |
| Domain.FieldInjective | backend/internal/store/transition.lua:88-90 | a hash field pid:qid determines both ids, since participant ids hold no colon |
| Room.FirstOpenSpec | backend/internal/store/transition.lua:122-126 | the cursor is the first question of the plan without an answer, also when answers came out of order |
| Room.PositionSpec | backend/internal/store/transition.lua:208-213 | the question number of a receipt is its place in the plan, and 0 exactly when the plan does not list it |
| RoomInvariant.ResolvesToOrdered | backend/internal/store/transition.lua:199-207 | the options the script stores in a receipt are those Present shows, in the same order |
| RoomSteps.VersionBounded | backend/internal/store/transition.lua:137-142 | the version counts participants and answers, hence is at most capacity * (1 + questions), at most 1800 |
| RoomSteps.PreflightPasses | backend/internal/store/transition.lua:99-130 | no storage guard fires in a room that satisfies the invariant |
| RoomSteps.JoinKeepsInv | backend/internal/store/transition.lua:131-144 | a committed join keeps the invariant that ties the seven maps to one another |
| RoomSteps.AnswerCommits | backend/internal/store/transition.lua:184-226 | an answer that is new in epoch, request and question passes every later check and stores a receipt that agrees with quiz, plan and score |
| RoomSteps.AnswerKeepsInv | backend/internal/store/transition.lua:207-225 | a committed answer keeps the invariant: score is the sum of points, count and cursor follow the receipts, answers mirror requests |
| RoomSteps.AnswerOutcome | backend/internal/store/transition.lua:169-226 | an answer that does not commit leaves the room as it was |
| RoomSteps.StartOutcome | backend/internal/store/transition.lua:149-168 | starting a question changes deadlines only and meets no fault |
| RoomSteps.StepKeepsLegal | backend/internal/store/transition.lua:43-241 | the room invariant is inductive over every command of the server, and none of them meets a fault |
| Script.Keys.Open | backend/internal/store/transition.lua:43-60 | reset and first seed leave an empty room of the given epoch |
| Script.Keys.Join | backend/internal/store/transition.lua:131-144 | the writes of a join, on the stored maps |
| Script.Keys.Start | backend/internal/store/transition.lua:149-168 | the branches of a start and its one write |
| Script.Keys.Answer | backend/internal/store/transition.lua:169-226 | the branches of an answer, its loops and its five writes |
| Script.Keys.Snapshot | backend/internal/store/transition.lua:227-240 | rows, members and receipts of a snapshot, with the count check |
| Script.Keys.Upgrade | backend/internal/store/transition.lua:61-98 | all checks of the upgrade come before its first write |
| Script.Keys.Run | backend/internal/store/transition.lua:1-241 | a run of the script, carried out in place, has exactly the effect and reply of Room.Step |
| RoomRuns.RunKeepsLegal | backend/internal/store/transition.lua:43-241 | every state of every run satisfies the invariant |
| RoomRuns.EpochStays | backend/internal/store/transition.lua:43-60 | an epoch once left does not come back |
| RoomRuns.SameEpochExtends | backend/internal/store/transition.lua:43-60 | states of one epoch, however far apart, are states of one growing room: plans, receipts, requests and deadlines stay |
| RoomRuns.VersionNamesPublicState | backend/internal/store/transition.lua:137-142 | epoch and version name one public state over a whole run: starts, seeds, previews, replays and refusals change neither |
| RoomRuns.PlanIsKept | backend/internal/store/store.go:151-157 | the first committed plan and every stored deadline outlive racing and later joins, restarts and answers |
| RoomRuns.AcceptedAnswerReplays | backend/internal/store/transition.lua:173-181 | after an accepted answer and any later events of that epoch, the same submission brings back the identical receipt and writes nothing; another payload conflicts |
| RoomRuns.StaleAnswerWritesNothing | backend/internal/store/transition.lua:169-171 | an answer for another epoch never writes |
| RoomRuns.OldIntentNeverLands | backend/internal/store/transition.lua:169-171 | once a room was reset, an answer for an epoch before the reset never scores |
| RoomRuns.CommittedOnce | backend/internal/store/transition.lua:176-183 | a participant's question, and a submission id, is committed at most once per epoch of a run, and versions grow with commits |
| RoomTiming.DeadlineIsFirstStart | backend/internal/store/transition.lua:154-167 | a stored deadline is the first successful start in the epoch plus the question's duration, and exists exactly when there was one |
| RoomTiming.TimedAward | backend/internal/store/transition.lua:185-196 | over any run: 100 exactly for a correct option within the duration of the first start, 50 when correct otherwise, 0 when wrong; the receipt names submission, option and that deadline, and is timed out exactly when it is past or was never set |
| RoomTiming.EveryReceiptWasCommitted | backend/internal/store/transition.lua:214-225 | nothing is among the answers but what an event of the run accepted |
| RoomReplies.AnswerIsTold | backend/internal/store/transition.lua:169-225 | in a legal room an answer gets exactly one of six replies, decided by epoch, membership, submission id and question: NOT_JOINED only to no member, ALREADY_ANSWERED with the stored receipt exactly for an answered question under an unused id; the room changes exactly for a new answer |
| RoomReplies.AnsweredStaysAnswered | backend/internal/store/transition.lua:182-183 | over runs, after an accepted answer any later answer of that participant to that question in that epoch under an unused id is told ALREADY_ANSWERED with that receipt, and writes nothing |
| RoomReplies.StartIsTold | backend/internal/store/transition.lua:149-167 | in a legal room a start is told the stored deadline exactly when there is one or the question is open, and each refusal exactly for its cause |
| RoomReplies.ClockIsFirstStart | backend/internal/store/transition.lua:155-167 | over runs every start that gets a clock, the first or a repeated one, is told the first successful start of the epoch plus the duration |
| RoomReplies.JoinIsTold | backend/internal/store/transition.lua:131-143 | in a legal room a join gets exactly one of four replies: QUIZ_FULL exactly to a newcomer when as many members are there as the capacity allows; a newcomer who is let in has the given name and plan and no points |
| RoomReplies.MemberIsAsEntered | backend/internal/store/transition.lua:131-143 | over runs, someone is a member exactly when an event let them into this room, with the name and plan of that event whatever later joins carry |
| RoomReplies.OpeningIsTold | backend/internal/store/transition.lua:43-106 | a reset, and a seed of an absent room, report and leave the new room; a seed or preview of a room that is there changes nothing and reports it |
| RoomReplies.RoomIsAsOpened | backend/internal/store/transition.lua:43-60 | over runs the room has the epoch, capacity and questions of the event that opened it, never more members than that capacity, and one version for each member and each answer |
| RoomReplies.CorruptRoomIsLeftAlone | backend/internal/store/transition.lua:99-130 | whatever the stored numbers: a room or a named member whose figures disagree, or other content than the room's, makes every command but a reset (or an upgrading seed) fail without a write |
| RoomReplies.OpensExactly | backend/internal/store/transition.lua:43-60 | a reset or first seed opens a room exactly when the capacity is 1 to 200 and, for a seed, nothing of an old room is left; otherwise nothing is written |
| RoomReplies.UnfitArgumentsWriteNothing | backend/internal/store/transition.lua:136-206 | arguments the store never passes (a plan that does not fit, a foreign question, a duration or points out of range, missing options) write nothing in a legal room |
| RoomUpgrade.UpgradeIsAllOrNothing | backend/internal/store/transition.lua:61-105 | for any stored room: either the checks hold and only content versions change, while orders, scores, progress, receipts, epoch and version stay, or nothing is written; the checks repeated after the writes cannot fail |
| RoomUpgrade.ConvertsExactly | backend/internal/store/transition.lua:61-98 | a room of any shape is converted exactly by a seed that names its content and finds the same questions, numbers in range, no clock, and every participant's plan and figures in order; one wrong figure keeps everything as it was |
| RoomUpgrade.SeedingAgainDoesNothing | backend/internal/store/transition.lua:61-105 | seeding the upgraded room again is a no-op |
| RoomUpgrade.UpgradeKeepsInv | backend/internal/store/transition.lua:93-97 | the room invariant under the old content holds under the new one |
| RoomUpgrade.UpgradeCondition | backend/internal/store/transition.lua:66-92 | exactly which legal rooms can be upgraded: no clocks, whole hundreds, and eight questions or nobody finished |
| Store.PrepareAnswer | backend/internal/store/store.go:164-190 | the answer command is issued exactly for well-formed ids, a known question and one of its options, with the points and key of the quiz |
| Store.PrepareStart | backend/internal/store/store.go:201-217 | the start command is issued exactly for a known question and a well-formed epoch, with the question's duration |
| Store.SecondJoin | backend/internal/store/store.go:130-163 | a second run is made exactly when the first asks for a plan and every draw succeeds; it carries the plan drawn, which fits the quiz |
| Store.Rank | backend/internal/domain/model.go:180-188 | the loop ranks rows in place |
| Store.RankCountsHigherScores | backend/internal/domain/model.go:180-188 | for rows in order a rank is one more than the number of rows with a higher score |
| Standings.Listed | backend/internal/store/transition.lua:229-229 | the listing holds every participant once, best first, ties by id |
| Standings.OnlyListing | backend/internal/store/transition.lua:229-229 | no other complete ordered listing exists |
| Store.AssemblePublic | backend/internal/store/store.go:241-267 | standings are assembled exactly when every stored row is sound |
| Store.Assemble | backend/internal/store/store.go:228-309 | the loops of Snapshot give the learner's state, or an error exactly when a row, the plan or the cursor is unsound |
| Acceptance.SnapshotAssembles | backend/internal/store/store.go:256-303 | in a legal room a member's snapshot never ends in an error, and its standings hold the member's own score and count |
| Protocol.ParseSnapshot | frontend/src/types/protocol.ts:171-213 | the loop accepts exactly the competition rankings with distinct participants and earnable scores |
| Protocol.NeighboursSuffice | frontend/src/types/protocol.ts:193-205 | checking each row against the one before it is checking the whole ranking |
| Protocol.ParseState | frontend/src/types/protocol.ts:297-371 | accepted exactly when fields, totals, progress and history agree; the loop accepts exactly running totals in order of acceptance |
| Protocol.AcceptedHangsTogether | frontend/src/types/protocol.ts:137-371 | whatever the server sends, what the browser accepts hangs together: score, points, counts, rank, own row, completion, receipts with running totals, and a question on screen without a receipt |
| Protocol.AccuracyAgrees | frontend/src/types/protocol.ts:327-328 | the server's integer rounding is the browser's rounding of 1000 c / n, halves up |
| Acceptance.SortedIsStrict | backend/internal/store/store.go:276-276 | receipts with different versions come out strictly ordered |
| Acceptance.SortedSum | backend/internal/store/store.go:276-276 | sorting does not change the points up to a version |
| Acceptance.TaughtIsSound | frontend/src/types/protocol.ts:137-170 | each stored receipt, taught, passes parseReceipt |
| Acceptance.PublicIsAccepted | frontend/src/types/protocol.ts:171-213 | the public snapshot of a legal room passes parseSnapshot |
| Acceptance.SnapshotIsAccepted | frontend/src/types/protocol.ts:297-371 | every state sent to a member of a legal room passes parseState |
| Acceptance.ReadState | backend/internal/store/store.go:228-309 | script reply, assembled by the store and parsed by the browser: always accepted, and always the view of the room |
| Snapshots.StandingsTell | backend/internal/store/store.go:241-267 | the standings of a legal room hold every member exactly once, best first, with their own name, score and count, and a rank one more than the number of members with a higher score |
| Snapshots.SnapshotTells | backend/internal/store/store.go:228-309 | what a member's state says in the room's own terms: standings, own figures and accuracy, exactly their receipts in order of acceptance, and the first question of their plan that is not answered, as the plan presents it |
| Snapshots.SnapshotIsTold | backend/internal/store/transition.lua:227-239 | a snapshot is refused exactly to someone who is no member, and never changes the room |
| QuizMachines.QuizMachine.ApplyPrivate | frontend/src/lib/quiz-machine.ts:255-303 | merging an incoming private state, in place |
| QuizMachines.QuizMachine.ReadDismissed | frontend/src/lib/quiz-machine.ts:305-329 | the dismissal mark is used only for the same epoch and person |
| QuizMachines.QuizMachine.LoadPending | frontend/src/lib/quiz-machine.ts:229-253 | a stored intent is taken up only for the state it belongs to |
| QuizMachines.QuizMachine.Receive | frontend/src/lib/quiz-machine.ts:337-369 | a socket snapshot, in place |
| QuizMachines.QuizMachine.Join | frontend/src/lib/quiz-machine.ts:157-174 | a join forgets the state but not the storage |
| QuizMachines.QuizMachine.Identified | frontend/src/lib/quiz-machine.ts:176-188 | joining goes on only for the identity known before; another one ends in an expired session |
| QuizMachines.QuizMachine.Joined | frontend/src/lib/quiz-machine.ts:194-208 | what follows the join response, up to the resend it makes |
| QuizMachines.QuizMachine.Synchronized | frontend/src/lib/quiz-machine.ts:380-388 | what follows a state read, up to the resend it makes |
| QuizMachines.QuizMachine.StartCurrentQuestion | frontend/src/lib/quiz-machine.ts:394-412 | a clock is asked for exactly when a question is open, has none and none is being asked for |
| QuizMachines.QuizMachine.ClockSettled | frontend/src/lib/quiz-machine.ts:452-454 | a settled request frees its own clock only |
| QuizMachines.QuizMachine.ClockGiven | frontend/src/lib/quiz-machine.ts:414-430 | a clock is taken only for the question still on screen |
| QuizMachines.QuizMachine.ClockFailed | frontend/src/lib/quiz-machine.ts:431-451 | a refused clock leads to a state read exactly when the question was answered elsewhere |
| QuizMachines.QuizMachine.Submit | frontend/src/lib/quiz-machine.ts:457-485 | an intent is stored before it becomes pending |
| QuizMachines.QuizMachine.Accept | frontend/src/lib/quiz-machine.ts:544-556 | only a receipt for the pending question of this epoch is shown |
| QuizMachines.QuizMachine.AnswerArrived | frontend/src/lib/quiz-machine.ts:507-510 | what follows an answer response |
| QuizMachines.QuizMachine.AnswerRefused | frontend/src/lib/quiz-machine.ts:511-538 | which failures keep, release or settle the intent |
| QuizMachines.QuizMachine.ResolvePending | frontend/src/lib/quiz-machine.ts:567-577 | a receipt settles the intent, otherwise it is sent again |
| QuizMachines.QuizMachine.Next | frontend/src/lib/quiz-machine.ts:597-620 | dismissal shows the next unseen receipt |
| QuizMachines.QuizMachine.Leave | frontend/src/lib/quiz-machine.ts:743-754 | leaving keeps the stored intent |
| ClientPromises.SubmitSendsSelection | frontend/src/lib/quiz-machine.ts:457-484 | submitting sends exactly when something is selected, nothing is pending or on show, the clock of this question is held, the own row is up to date and storage can be written; what is stored and sent is the selected option, for the question on screen, under the new id |
| ClientPromises.ReadIsTaken | frontend/src/lib/quiz-machine.ts:255-303 | exactly which reads are ignored, and everything else a read changes: private fields, the newer standings, the intent, the result on show (the settled receipt, what was shown, or the latest receipt that was not dismissed) and the selection |
| ClientPromises.ReadsOnlyTake | frontend/src/lib/quiz-machine.ts:380-388 | a synchronization or a reread does nothing but take its state, and nothing at all in another life of the page |
| ClientPromises.PagesForget | frontend/src/lib/quiz-machine.ts:157-174 | a join, a restarted session and a reload leave nothing of the page but its storage |
| ClientPromises.AnswerIsShown | frontend/src/lib/quiz-machine.ts:507-510 | a receipt for the pending question of this quiz and epoch is shown at once and settles the intent; any other response changes nothing |
| ClientPromises.RejectionIsHandled | frontend/src/lib/quiz-machine.ts:511-537 | what each kind of failure does to intent, result and gate |
| ClientPromises.UnawaitedIsIgnored | frontend/src/lib/quiz-machine.ts:507-513 | a response to another intent, or in another life of the page, changes nothing |
| ClientPromises.SyncSendsPending | frontend/src/lib/quiz-machine.ts:567-577 | after a state read whatever is pending has just been put on the wire |
| ClientPromises.SnapshotIsTaken | frontend/src/lib/quiz-machine.ts:337-369 | exactly when a socket snapshot replaces the standings, has the state read again, or is ignored |
| ClientPromises.ClockIsTaken | frontend/src/lib/quiz-machine.ts:414-451 | a clock is taken exactly for the question still asked; what each failed request gates |
| ClientPromises.NextDismisses | frontend/src/lib/quiz-machine.ts:597-620 | a result is dismissed exactly when the private state shown has its receipt; the mark that is left, and what shows next |
| ClientPromises.IntentSurvivesReload | frontend/src/lib/quiz-machine.ts:229-253 | after a reload a stored intent is taken up and sent again exactly when it belongs to the state read and has no receipt there |
| ClientPromises.DismissedStaysAway | frontend/src/lib/quiz-machine.ts:305-329 | a result that was dismissed does not come back after a reload, unless a newer receipt is there |
| ClientInvariant.AppliedSafe | frontend/src/lib/quiz-machine.ts:255-303 | a merge of any two server states keeps the client's two halves genuine |
| ClientInvariant.ActKeepsSafe | frontend/src/lib/quiz-machine.ts:157-754 | whatever arrives, in whatever order and however often, the client stays safe |
| ClientInvariant.VersionsNeverDrop | frontend/src/lib/quiz-machine.ts:255-369 | while the epoch stays, neither the shown version nor the version of the private fields drops |
| ClientInvariant.OnlyReadsChangePrivate | frontend/src/lib/quiz-machine.ts:337-369 | no socket message, answer, clock or click changes a private field or the epoch |
| ClientInvariant.SocketOnlyStandings | frontend/src/lib/quiz-machine.ts:337-369 | a socket message leaves everything but standings and connection alone |
| ClientInvariant.SentIsStored | frontend/src/lib/quiz-machine.ts:457-505 | what is put on the wire is stored, pending, belongs to the state shown, and its question has no receipt there |
| ClientInvariant.StoresOnlyNew | frontend/src/lib/quiz-machine.ts:475-483 | only submitting stores an intent, and under its new id |
| EndToEnd.TruthIsCoherent | backend/internal/store/store.go:228-309 | what the server says over a run hangs together: states are accepted, their receipts committed, their standings published |
| EndToEnd.AnswerReplyIsSaid | backend/internal/store/store.go:79-91 | a receipt an answer brings back, accepted, replayed or as a refusal, is one the server holds for this participant |
| EndToEnd.ReadReplyIsSaid | backend/internal/store/store.go:228-309 | a state read brings back the view of the room at that moment |
| EndToEnd.RunIsSafe | frontend/src/lib/quiz-machine.ts:157-754 | client, network, server, reloads and resets together keep the system invariant in every run |
| EndToEnd.FeedbackWasCommitted | frontend/src/lib/quiz-machine.ts:544-556 | feedback is never optimistic: one event of the server's run committed it, in the epoch shown |
| EndToEnd.ResultShowsItsQuestion | frontend/src/lib/quiz-machine.ts:87-89 | the question shown with a result is the one it is about, exactly as the learner's plan presented it |
| EndToEnd.NoSecondCommit | backend/internal/store/transition.lua:176-183 | no second event of the run commits that participant's question in that epoch |
| EndToEnd.ScreenIsReal | frontend/src/lib/quiz-machine.ts:255-303 | private fields are the server's at privateVersion, standings the server's at the state's version, of one epoch, the second not older |
| EndToEnd.ScreenMovesForward | frontend/src/lib/quiz-machine.ts:255-369 | between any two moments of a run between which one epoch is shown throughout, neither version drops |
| EndToEnd.PendingIsWrittenAhead | frontend/src/lib/quiz-machine.ts:475-484 | while an intent is pending, storage holds exactly it, it belongs to the state, no feedback shows, its question has no receipt |
| EndToEnd.SentWhileOpen | frontend/src/lib/quiz-machine.ts:487-505 | an intent goes on the wire only while it is the pending one |
| EndToEnd.ResendsAreIdentical | frontend/src/lib/quiz-machine.ts:500-506 | all sends of one submission id over a run carry the same payload, across reloads |
| EndToEnd.NeverConflicts | backend/internal/store/transition.lua:177-181 | no intent the browser sends, however often, is refused as a conflict, when the participant's answers come from this browser |
| SelectionRuns.SubmittedWasSelected | frontend/src/lib/quiz-machine.ts:457-484 | over runs a new intent carries the option chosen last, selected ever since; when the learner selected it, the intent's question was on screen from that selection on; otherwise it is the option of an intent taken up from storage |
| SelectionRuns.EveryIntentWasSelected | frontend/src/lib/quiz-machine.ts:229-253 | every intent ever stored or sent, across reloads and rejections, carries an option the learner selected before |
| SelectionRuns.QuestionStays | backend/internal/store/store.go:297-306 | of two states of one learner and epoch the question the earlier asks is asked by the later, until it has a receipt |
| EpochOrder.EpochGoesBackExactly | frontend/src/lib/quiz-machine.ts:255-262 | the epoch shown goes back exactly when two reads that were taken crossed: served on either side of a reset, arrived in the other order |
| EpochOrder.EveryRunGoesBackExactly | frontend/src/lib/quiz-machine.ts:255-262 | the same of every run, whose reads can always be dated |
| EpochOrder.CrossedOverlap | frontend/src/lib/quiz-machine.ts:380-388 | of two reads that crossed the later to arrive was begun before the other arrived |
| EpochOrder.OneAtATimeNeverReturns | frontend/src/lib/quiz-machine.ts:380-388 | with one read at a time, an epoch shown twice was shown all along |
| EpochStory.EpochCanGoBack | frontend/src/lib/quiz-machine.ts:380-388 | a run that shows one epoch, the next, and the first again, with two synchronizations or with the read after a refused clock |
| HubMachine.OfferTo | backend/internal/realtime/hub.go:274-286 | three selects on a one-place queue: the new message always gets in, the old one is read or dropped |
| HubMachine.Machine.DirtyAll | backend/internal/realtime/hub.go:84-90 | every room is marked |
| HubMachine.Machine.Serve | backend/internal/realtime/hub.go:107-137 | a socket is registered, or turned away at the limits and by a closed hub |
| HubMachine.Machine.Shut | backend/internal/realtime/hub.go:91-99 | closing keeps the hub's invariant |
| HubMachine.Machine.TickAll | backend/internal/realtime/hub.go:206-217 | after a tick either the channel is full or no room is due |
| HubMachine.Machine.Broadcast | backend/internal/realtime/hub.go:250-287 | cache and queues after a refresh |
| HubSteps.StepKeepsSound | backend/internal/realtime/hub.go:77-289 | every step keeps the hub's invariant, hence every interleaving does |
| HubSteps.TickSound | backend/internal/realtime/hub.go:207-215 | a room passes from dirty to owned without losing its notification |
| HubSteps.DeliverSound | backend/internal/realtime/hub.go:250-287 | after a delivery every socket was offered what was read at or after the last notification, or the room is dirty again |
| HubSteps.CacheIsFresh | backend/internal/realtime/hub.go:253-264 | the message sent again is always the encoding of the state just read |
| HubPromises.NotificationIsNotLost | backend/internal/realtime/hub.go:77-83 | after a notification and any further steps each socket was last offered standings of its epoch read at that moment or later, a reset notice because the room was then or later of another epoch, or word of a read that failed then or later; unless the room is dirty or a refresh is coming that has not read, or has read that moment or later |
| HubPromises.ResetIsTold | backend/internal/realtime/hub.go:265-273 | after the notification of a reset, sockets of the ended epoch were last told to reset or that the room cannot be read, with the same proviso |
| HubPromises.VersionsNeverDrop | backend/internal/realtime/hub.go:265-287 | a socket is offered standings of its own epoch only, with versions that never drop |
| HubProgress.EveryoneCanBeInformed | backend/internal/realtime/hub.go:206-235 | from every reachable state ticks and workers alone can bring every socket of a room up to date: nothing is stuck |
| HubProgress.DeliveryTells | backend/internal/realtime/hub.go:250-287 | a delivery puts exactly one message in each queue: standings to sockets of the epoch read, a reset notice to the others, word of a failed read to all |
| HubProgress.NotifiedCanBeTold | backend/internal/realtime/hub.go:77-90 | after a notification in any reachable state ticks and workers alone can have every socket told of the last public state: the standings if its epoch is current, to reset if not |
| HubProgress.OldestJobIsTaken | backend/internal/realtime/hub.go:224-235 | rooms are served in the order in which they were queued, whichever worker takes them |
| HubProgress.SocketIsTakenExactly | backend/internal/realtime/hub.go:107-137 | a socket is taken exactly when the hub is open, the room is there or may be opened, and neither the room's 800 nor the person's four places are taken |
| HubProgress.GoingFreesPlace | backend/internal/realtime/hub.go:141-149 | a socket that goes frees its place and its person's, and no other's |
| HubProgress.NewcomerIsResetExactly | backend/internal/realtime/hub.go:265-273 | a socket of the room's current epoch is told to reset exactly when the delivered read succeeded and predates that epoch |
| HubProgress.NewcomerIsReset | backend/internal/realtime/hub.go:237-273 | a run in which that happens, for any two epochs |
| HubPromises.StepKeepsPerPerson | backend/internal/realtime/hub.go:123-133 | no one has more than four sockets in a room |
| HubPromises.TimelineIsSteady | backend/internal/realtime/hub.go:253-264 | the public states of a room over a run satisfy what the hub relies on: versions, one state for each, and epochs that never come back |
| Cache.TrimsNoMore | backend/internal/learning/gateway.go:52-54 | eviction keeps the longest most-recent prefix that leaves room |
| Cache.GetHits | backend/internal/learning/gateway.go:32-44 | a lookup hits exactly when there is an unexpired entry, drops an expired one, and keeps every other entry |
| Cache.InOrderOfUse | backend/internal/learning/gateway.go:42-55 | after any operations the entries stand in the order of their last use |
| Cache.EvictsLeastRecent | backend/internal/learning/gateway.go:52-54 | what a put evicts was used less recently than anything it keeps |
| Cache.PutThenGet | backend/internal/learning/gateway.go:45-57 | what is small enough is found again for a day, whatever had to go for it |
| Cache.PutKeeps | backend/internal/learning/gateway.go:45-57 | a put keeps one entry per key and both bounds |
| Cache.RunKeeps | backend/internal/learning/gateway.go:32-57 | after any operations the cache is bounded and each entry is the last one admitted for its key |
| Cache.HitIsLastAdmitted | backend/internal/learning/gateway.go:32-57 | a hit is the last admitted value, at most a day old |
| Cache.HitIsLastPutUnlessOversized | backend/internal/learning/gateway.go:45-48 | of the cache alone, for callers that may put a cached key again: a hit is the last value put exactly when that value was small enough to be admitted |
| Cache.LruCache.Remove | backend/internal/learning/gateway.go:26-31 | map, list and byte count lose one element together |
| Cache.LruCache.Lookup | backend/internal/learning/gateway.go:32-44 | a lookup on map and list is one on the recency list |
| Cache.LruCache.Insert | backend/internal/learning/gateway.go:45-57 | an insertion on map and list is one on the recency list; the eviction loop ends before the list is empty |
| Budget.TwiceTheCap | backend/internal/learning/gateway.go:125-140 | fixed windows admit at most twice their cap in any stretch of their length |
| Budget.BudgetBound | backend/internal/learning/gateway.go:116-148 | over any run: at most twice the cap of a kind per owner in any minute, 200 in any hour, 2048 windows |
| Budget.AdmitsExactly | backend/internal/learning/gateway.go:125-147 | a call is admitted exactly below 6, 12 or 3 in the owner's current minute and 100 in the current hour, with a window or room for one |
| Budget.WindowsAreExact | backend/internal/learning/gateway.go:125-147 | what a call leaves of every window and of the hour, admitted or not |
| Budget.RefusedCallHasCause | backend/internal/learning/gateway.go:125-147 | over any run a call is refused only when the cap was used up in a minute that began less than a minute ago, 100 in such an hour, or 2048 windows are running |
| GatewayMachine.Machine.Allow | backend/internal/learning/gateway.go:116-148 | the expiry loop and the two budgets, in place |
| GatewayMachine.Machine.Call | backend/internal/learning/gateway.go:152-232 | what a call does under the mutex before it waits, and what it tells its caller |
| GatewayMachine.Machine.Depart | backend/internal/learning/gateway.go:233-241 | the deferred section: the last waiter cancels the flight |
| GatewayMachine.Machine.Land | backend/internal/learning/gateway.go:212-222 | what a finished flight stores and removes |
| GatewayMachine.Machine.Shut | backend/internal/learning/gateway.go:97-103 | closing cancels exactly the flights in the table |
| GatewayMachine.Machine.Renew | backend/internal/learning/gateway.go:104-109 | when every flight has finished, fresh caches and windows |
| GatewaySteps.StepKeepsSound | backend/internal/learning/gateway.go:152-248 | every step keeps the gateway's invariant, hence every interleaving does |
| GatewaySteps.AlwaysWithinLimits | backend/internal/learning/gateway.go:167-180 | at most 8 flights with a key, one per key, 32 waiting callers, 16 on a flight, 2 provider calls |
| GatewaySteps.WaitingIsTheSum | backend/internal/learning/gateway.go:230-240 | the waiting counter is the sum of the waiters of all flights, finished ones included |
| GatewaySteps.SameResult | backend/internal/learning/gateway.go:212-247 | callers of one flight who were given a result were given the same one |
| GatewayRuns.StepKeepsOrderly | backend/internal/learning/gateway.go:152-248 | while a flight is under way its key is not in its cache, and a flight nobody waits for is cancelled |
| GatewayRuns.HitIsLatestWanted | backend/internal/learning/gateway.go:157-217 | at any moment of any run a hit is the data of the latest wanted completion for that key in that cache, at most a day old |
| GatewayRuns.AbandonedNeverLands | backend/internal/learning/gateway.go:209-240 | a flight abandoned before its last look at its context never puts anything in a cache and gives nobody data, also when a later caller joins it |
| GatewayRuns.FlightsAreBudgeted | backend/internal/learning/gateway.go:116-148 | over any run with ordered times: one admission for each flight ever started, per minute and owner at most twice the cap of a kind, per hour at most 200, 2048 windows |
| GatewayPromises.CallIsTold | backend/internal/learning/gateway.go:152-185 | exactly when a call is told AI_UNAVAILABLE, given cached data, told AI_BUSY or AI_RATE_LIMITED, or told to wait; a call for a key under way waits for that flight unless 32 wait or 16 wait for it |
| GatewayPromises.CallCounts | backend/internal/learning/gateway.go:171-232 | whoever is told to wait is counted on that flight; a flight is started and the budgets are charged only for a key that has none under way |
| GatewayPromises.WaiterGetsFlightsOutcome | backend/internal/learning/gateway.go:230-248 | over runs a caller who was told to wait for a flight, in particular one that was under way, waits for it until it is given that flight's outcome, and never another's |
| GatewayPromises.OutcomeIsProviders | backend/internal/learning/gateway.go:196-213 | over runs what a caller is given is what the provider call of its flight returned, or a timeout of a cancelled flight |
| GatewayPromises.CancelledHasCause | backend/internal/learning/gateway.go:233-241 | over runs a flight is cancelled only because nobody waited for it at some moment, it ran out of time, or the gateway closed |
| GatewayPromises.CancelledNeverDelivers | backend/internal/learning/gateway.go:186-213 | over runs a flight that runs out of time, or is under way when the gateway closes, before its last look at its context gives nobody data |
| GatewayPromises.DepartureIsExact | backend/internal/learning/gateway.go:233-241 | a caller who goes is no longer counted, and cancels the flight exactly when nobody is left |
| GatewayPromises.FreshDataIsServed | backend/internal/learning/gateway.go:214-216 | data that somebody waits for and that fits is there for the next call for the key, for a day |
| GatewayPromises.OthersStayCached | backend/internal/learning/gateway.go:45-57 | what is stored puts nothing else out as long as there are a place and the bytes for it: 128 and 4 MiB for text, 32 and 16 MiB for speech |
| GatewayPromises.ClosingIsExact | backend/internal/learning/gateway.go:97-110 | closing cancels exactly the unfinished flights; when all are finished caches and windows are emptied |
| GatewayProgress.SlotIsGivenExactly | backend/internal/learning/gateway.go:196-200 | a waiting flight is given a slot exactly when fewer than two are held |
| GatewayProgress.EveryCallerCanBeServed | backend/internal/learning/gateway.go:190-248 | from every reachable state the flights' own steps can bring each waiting caller the end of its flight: whatever its provider answers, if it is not cancelled |
| Limiter.StepKeeps | backend/internal/httpapi/limiter.go:23-52 | a call takes one token from its own bucket or none, and changes no other level |
| Limiter.RateBound | backend/internal/httpapi/limiter.go:23-52 | in any stretch of length T a key is admitted at most burst + rate * T times, sweeps included, when two minutes refill a bucket |
| Limiter.RunIsValid | backend/internal/httpapi/limiter.go:29-41 | at most 4096 keys are tracked |
| Limiter.SweepRefills | backend/internal/httpapi/limiter.go:31-35 | a run in which a sweep hands a key a second full bucket, spent to its last fraction both times |
| Limiter.BoundedExactly | backend/internal/httpapi/limiter.go:31-35 | for every rate and every burst of at least 1 the bound holds for all runs exactly when burst <= 120 * rate |
| Limiter.AllowedExactly | backend/internal/httpapi/limiter.go:23-52 | a call is allowed exactly when its bucket holds a token by then and, if it has none yet, the map is not full or a due sweep finds an idle bucket |
| Limiter.SweepsExactly | backend/internal/httpapi/limiter.go:29-41 | over runs sweeps come at least a minute apart, whenever a new key finds the map full, and take exactly the buckets idle for more than two minutes |
| Limiter.PatientIsAllowed | backend/internal/httpapi/limiter.go:43-51 | over runs a key whose latest call is long enough ago for one token to flow in is allowed, whatever it spent before and whatever others do, as long as it has a bucket or finds room |
| Limiter.NewcomerIsAllowed | backend/internal/httpapi/limiter.go:27-42 | over runs a key that has not called yet is allowed exactly when it finds room |
| Limiter.Limit.Allow | backend/internal/httpapi/limiter.go:23-52 | the bucket map after a call, with its sweeping loop |
| Review.Choose | backend/internal/learning/review.go:189-199 | in order of question number, the loop selects the first three receipts that were wrong, or any when all were right |
| ReviewPromises.ChosenExactly | backend/internal/learning/review.go:189-199 | a receipt is chosen exactly when it was wrong, or all were right, and fewer than three before it count |
| ReviewPromises.ChosenInOrder | backend/internal/learning/review.go:189-199 | the chosen receipts stay in order of question number |
| ReviewPromises.DeckIsOfReceipts | backend/internal/learning/review.go:239-260 | card i asks the question of chosen receipt i, with its options and the key it was graded by |
| ReviewPromises.EligibleExactly | backend/internal/learning/review.go:174-179 | whoever has answered everything and has something wrong, or asks for extra practice, may start a review, and nobody else |
| Review.TryAction | backend/internal/learning/review.go:275-340 | one try of an action, with its checks and changes in order |
| Review.ReviewAction | backend/internal/learning/review.go:274-348 | a call puts back at most one document, one that nobody changed in between, in at most six tries |
| Review.PublicState | backend/internal/learning/review.go:88-112 | the loop counts responses and picks card, feedback and hint |
| ReviewRuns.StartIsSound | backend/internal/learning/review.go:174-260 | whoever is eligible gets a deck of one to three cards, one per question |
| ReviewRuns.DeckFacts | backend/internal/learning/review.go:326-330 | card ids stay distinct and the deck is at most twice its originals, at most six |
| ReviewRuns.ActKeepsSound | backend/internal/learning/review.go:291-340 | an accepted action keeps the deck: originals, then one reinforcement for each wrong original; responses are for the first cards; versions and intents count them |
| ReviewRuns.LimitsNeverBind | backend/internal/learning/review.go:288-290 | at most 12 actions are ever accepted, so the limits of 6 cards and 24 intents never refuse anything |
| ReviewRuns.RunKeepsSound | backend/internal/learning/review.go:135-152 | with any number of interleaved callers the stored document stays sound and only grows |
| ReviewRuns.CommittedActionReplays | backend/internal/learning/review.go:282-287 | a committed action is a replay in every later document, and its id with another request a conflict |
| ReviewRuns.AtMostTwelveActions | backend/internal/learning/review.go:339-340 | over a whole session at most twelve actions are committed |
| ReviewRuns.ShowSound | frontend/src/types/learning.ts:98-181 | what is shown of a sound document always passes parseReview |
| ReviewPromises.ActionIsTold | backend/internal/learning/review.go:279-338 | in a sound document each verdict on an action is given exactly for its cause |
| ReviewPromises.AnswerIsGraded | backend/internal/learning/review.go:299-330 | an answer is right exactly when it selects the card's key and does not skip; what its response records; exactly a wrong, unskipped answer to an original adds the card once more |
| ReviewPromises.EveryResponseIsGraded | backend/internal/learning/review.go:319-325 | in every document of every run each response was graded by the key of the original its card repeats, and says whether the card had a hint |
| ReviewPromises.AskedAgainExactly | backend/internal/learning/review.go:326-330 | in every document of every run an original is asked again exactly when it was answered with a wrong option |
| ReviewPromises.CanBeFinished | backend/internal/learning/review.go:291-340 | from every document that can come up some requests, all of which are taken, bring the review to its end |
| ReviewPromises.PutBackExactly | backend/internal/learning/review.go:135-152 | a document prepared and put back after any steps of others is kept exactly when the stored one is still the one that was read |
| ReviewPromises.HintIsKept | backend/internal/learning/review.go:386-407 | an undisturbed hint is kept exactly for the card asked, before its answer, and once |
| ReviewPromises.TalliesTell | backend/internal/learning/review.go:88-100 | every response is counted once as checked or skipped, and the cards that need another look are those not answered right |
| Drafts.SaveItems | backend/internal/learning/authoring.go:376-393 | the loop saves exactly fitting edits, and voids an approval exactly when content changed |
| Drafts.MutateDraft | backend/internal/learning/authoring.go:330-374 | saving and approving, with all checks, up to the write |
| DraftPromises.SaveIsTold | backend/internal/learning/authoring.go:330-393 | each verdict on a save is given exactly for its cause; a save takes over title and contents and voids exactly the approvals of contents it changes |
| DraftPromises.ApprovalIsTold | backend/internal/learning/authoring.go:395-408 | each verdict on an approval is given exactly for its cause; it approves exactly the named item, for its content and at its version |
| DraftPromises.UnknownItemIsTold | backend/internal/learning/authoring.go:395-408 | an approval that names no item is refused as such |
| DraftPromises.PublishIsTold | backend/internal/learning/authoring.go:439-469 | publishing goes on exactly for a timely request, a final review, and items all approved as they are |
| DraftPromises.MutationIsKeptExactly | backend/internal/learning/authoring.go:324-328 | a save or approval put back after any steps of others is kept exactly when the draft is still the one that was read |
| DraftPromises.PublicationIsKeptExactly | backend/internal/store/published.go:70-84 | a publication put back is carried out, with definition, draft and room together, exactly when the draft is still the one read, fewer than twenty are published, and the id is free |
| Drafts.BuildQuiz | backend/internal/learning/authoring.go:463-484 | the loop builds quiz and study details exactly from fully approved items |
| Drafts.Get | backend/internal/store/published.go:26-46 | the loop puts study details back, or fails when a question has none |
| DraftRuns.MutateKeepsSound | backend/internal/learning/authoring.go:354-358 | approvals are always for the current content, item ids and their number never change, the version counts intents |
| DraftRuns.ReadsBack | backend/internal/store/published.go:26-46 | reading a published definition gives exactly the approved quiz with its study details |
| DraftRuns.PublishedIsLive | backend/internal/learning/authoring.go:463-481 | a published quiz has 4 to 8 questions with distinct ids, four distinct choices each, one correct, and can be served |
| DraftRuns.PublishedStays | backend/internal/learning/authoring.go:345-347 | no caller changes a published draft, however old the draft it read |
| DraftRuns.DraftFollows | backend/internal/learning/authoring.go:330-374 | between any two moments in which a draft did not expire: same item ids, version not dropped, and unchanged if it was published |
| DraftRuns.RunKeepsWorld | backend/internal/store/published.go:72-84 | with any number of callers drafts stay sound and a published definition is there unchanged for good |
| DraftRuns.PublishedResolves | backend/internal/store/published.go:26-46 | whenever a draft shows as published, its quiz resolves to the quiz of its approved items |
| DraftPromises.PublishedAsksApproved | backend/internal/learning/authoring.go:463-484 | over runs question i of the quiz that a published draft resolves to asks item i: its id, prompt, options in order, explanation and study details, its key at the item's index and nowhere else, 20, 30 or 40 seconds; and the item is approved as it is |
| DraftPromises.PublishedWasApproved | backend/internal/learning/authoring.go:395-408 | in every run from an empty repository each item of a published draft was approved for its very content by a request that the draft took |
| DraftPromises.QuizIdIsPrefix | backend/internal/learning/authoring.go:463-463 | the quiz id is made of the draft id's first twelve of thirty-two hexadecimal digits |
| DraftRuns.EverythingResolves | backend/internal/store/published.go:26-46 | every definition in the repository resolves to a quiz that can be served |
| DraftRuns.PublicationOpensLegalRoom | backend/internal/store/published.go:81-83 | the room a publication opens satisfies the room invariant for the published quiz |

## Left out

- HTTP handlers, cookies, WebSocket and Pub/Sub transport, the Redis client, metrics,
  configuration and authentication: plumbing around the modelled state.
- A Redis failure in the middle of a script: the program disclaims rollback.
- STORAGE_TYPE, STORAGE_NAME and JSON decoding errors of the script: the maps are typed
  here; all other storage errors are one reply, Fault, as callers see them alike.
- Limits on the length of texts, the pattern of submission ids and the length test on
  epochs: one-branch checks on opaque text; whether ids are well-formed is a parameter.
- Prompts, schemas, generated text and its validators, speech: foreign calls; whether a
  text passes is a flag of a draft item, and generated hints and stems are opaque.
- Reconnect timers and user-visible messages.
- The client's request throttles (busy, sending, starting, resolving, publicSync) and
  socket tokens in whole runs: the model lets every request and socket event happen at any time, which
  covers more schedules than the program has.
- The hub's tick and dirtyAll sections as one step: the machine takes them room by room,
  which allows more interleavings; the object does them in one section.
- Of review sessions: their expiry after a day, two StartReview calls that race to create one,
  and the test of reviewCAS that the room is still of the session's epoch.
- Recovering a lost publication or save from the intents of the latest draft: the reply
  only, no state changes.
- QuizMachines.QuizMachine.SocketSaid: does not say which status code leads to which connection state, because any may arrive at any time.
