# A verified model of the game server's state machines

This project models the parts of the server where several functions, or several players, must keep something
true together, and proves what they keep. Each module names the source files it follows in its first line.

**Script events.** A published script runs in a child process; the engine drives it event by event, answers its
queries, stages its durable effects and commits them in one transaction.
`RuntimeProtocol` is the session and the host process as two parties with a queue between them. `EventState` stages
effects and answers queries, and `EventStateTheorems` says what the answers mean; `Ledger` applies effects and every
other economy and progression transaction to a character, `LedgerMoves` says what each of them moves and when it
succeeds, and `StagingTheorems` proves that staging and applying agree. `ScriptEngine` is the loop around a run,
`ScriptEndings` and `ScriptTraces` relate how a run ends, what the
player is shown and what is traced to what its script said, `ScriptPreview` is the second interpreter of the same
events, `ScriptSessions` joins both to the protocol, `Dispatch` is the choice of a candidate for a trigger. `ScriptRuns`
has the store's steps over all runs and characters, `ScriptLeases` who may start, renew and commit, and what is then
equal to what; `Store` is the class whose methods make these updates in place.

**The realtime hub.** `HubMembers` (connections, rooms, presences, doors), `HubForklifts` and `HubCargo` are its three
groups of maps, `HubState` composes them into steps, with timers as multisets of armed tags that may fire at any later
time, and with a commit as two steps that a disconnect may separate. `HubServer` is the class with the handlers.
`HubTheorems` and `HubAuthority` state what holds in every run. `HubDoors`, `HubPresences`, `HubCargoClaims` and
`HubCargoTimers` say, without the model's own checks, exactly when a door is granted, a presence accepted, a forklift
driven and cargo claimed, freed or replaced, and over runs that nothing of it happens otherwise.

**Chat, rate limits, doors.** `ContentFilter`, `RateLimits`, `TravelAccess`.

**People on schedule.** `NpcRoute`, `NpcCircuit`, `NpcSchedule` and `NpcTick`, over exact reals: route kinematics, rounds,
evaluation of a journey, and the tick that advances, blocks and sidesteps; `NpcOperations` says when each operation is
over and what it does, `NpcEncounters` how long actors wait and what is shown of them; `NpcTickWitnesses` has the runs on
which the tick goes wrong.

**Script versions.** `ScriptVersions`: drafts, review, publication, rollback and import of one script's rows;
`ScriptEditing` says who may do each of these, and when.

Where the source changes fields, maps or arrays in place, so do the classes and methods here, and their
postconditions equate the new state with a function of the old one. The theorem modules prove the properties of those
functions, over histories of arbitrary operations.

## What the proofs showed

- With at most one active run for a character (a unique index), the revision check of a commit can never fail:
  `ScriptRunTheorems.RevisionConflictIsUnreachable`.
- A script that shows something and then passes its trigger is declined by the preview and fails in play. This is the
  only difference between the two, and the condition is exact: `ScriptPreview.DeclinedPreviewPassesIffNothingWasShown`.
- An answer of the wrong type passes the session and stops the host: `RuntimeProtocol.WronglyTypedAnswersStopTheHost`.
  The engine's answers to registered queries never are: `EventState.AnswersHaveTheRegisteredKind`.
- An offer that is not available is refused by the session alone: the host goes on with any id that it offered
  (`RuntimeProtocol.HostGoesOnIffAnswered`, `InputsAcceptedIffAskedFor`).
- A run whose lease is over can no longer commit but can still be cancelled or failed: `ScriptLeases.ClosesIff`.
- Censoring is idempotent for lists whose phrases have no doubled spaces, and need not be for others:
  `ContentFilter.DoubleSpacedPhraseBreaksIdempotence`.
- The chat windows exclude their far end: `RateLimits.WindowsAreHalfOpen`.
- A presence that still names a forklift released long ago clears the owner shown for its next driver, though not the
  registered one: `HubForkliftsTheorems.AnotherPresenceClearsTheOwnerIffItNamedTheForklift`. Ownership is therefore
  proved in one direction only: a named owner is the registered one.
- A presence may name a forklift that no longer exists. Releasing it then stores a state under the empty id, which the
  model keeps (`Unnamed`) and the invariant describes.
- An official import compares a recorded hash that an edited copy keeps, so that it can take an edited text that names
  the same flags, actors, items and places for its own. `ScriptVersionTheorems.ImportPublishesTheContentUnlessTheHashIsStale`
  is the exact condition, `RepeatedImportLeavesAnEditedCopy` a whole run that ends so, and
  `UneditedImportsPublishTheContent` says that only saving a draft leads there.
- A tick that fails keeps the delays it has already counted but not its time, so that the next one counts them again and
  an actor's schedule can go back and the actor jump: `NpcTickWitnesses.FailedTickTurnsTheScheduleBack` is a run of three
  ticks from a new engine that ends so. `NpcTickTheorems.DelayIsCountedTime` is the exact sum over any ticks of a day,
  and `DelayIsFrozenTimeIffNoFailureCountedIt` says when it is the time spent frozen.
- On one leg of one day of its schedule an actor is never announced to have jumped: `NpcTickTheorems.SameRouteIsNeverAJump`.
  The conditions are all needed: it jumps when its schedule goes back by more than a second (`FailedTickTurnsTheScheduleBack`),
  when the clock changes its pace (`NpcTickWitnesses.ChangedPaceIsAJump`), and when its schedule starts again
  (`MidnightIsAJump`).
- Opening hours that begin before the day boundary, or end after the next one, do not mean what they say:
  `TravelAccess.OpenInItsHoursIffTheyFit` is the exact condition on valid hours, `EarlyHoursAreClosed` an example.

## Assumptions

- Transactions are atomic. The unique indexes of the database hold: one active run for a character, one ledger row for
  an event key, one purchase for a request id. They are checks in the model's inserts, as they are in the database. (That
  one version of a script is published at most is no index, and is proved.)
- Event keys of different origin are different: a caller's own key is never one that the store makes up for a sale, a
  healing item or a script effect. In the source all of them are strings of one column.
- The database lists identifiers in the order in which the program sorts them, so that comparing the lists is comparing
  sets.
- `ScriptEngine` and `ScriptPreview` take the session as a function from the inputs sent to the next event, numbered by
  exchange and bounded (`Paced`). `ScriptSessions` proves this of every session that reads from its host, whatever course
  the host takes.
- Random names, tokens and ids are fresh. Times given to steps of the hub are positive; the messages of one connection
  are handled one at a time.
- A timer is armed in the same step as the change that asks for it, and fires no earlier than it is due.
- Square roots are exact: a function whose value is not negative and squares to its argument.
- The Unicode tables are functions on characters of which only this is assumed: a star vanishes, and a space, and only
  a space, is a space after normalising.
- The configured forklifts are not named like spawned ones, the configured cargo spawns are distinct, and the configured
  jobs are numbered below four.

## Model

| member | source | states |
|---|---|---|
| ContentFilter.CensorChat | internal/contentfilter/filter.go:366-414 | the three nested loops over the normalised text overwrite the message exactly where some whole-word occurrence of a listed word covers a rune that is not a space: the returned text is `Censored` |
| ContentFilter.CensoredIsExact | internal/contentfilter/filter.go:366-418 | for every message and rune: length and spaces are kept; a rune that was neither a space nor a star ends as a star if and only if it lies inside the original span of a whole-word occurrence; nothing else changes |
| ContentFilter.CensoredIgnoresOrder | internal/contentfilter/filter.go:366-414 | two lists with the same words censor every message alike, whatever their order and repetitions |
| ContentFilter.CensoringTwiceIsCensoringOnce | internal/contentfilter/filter.go:366-418 | idempotence, for every message and every list whose phrases have single interior spaces |
| ContentFilter.DoubleSpacedPhraseBreaksIdempotence | internal/contentfilter/filter.go:366-414 | the restriction to single spaces is needed: a list and a message on which a second pass censors more |
| ContentFilter.LookalikesAreRead | internal/contentfilter/filter.go:366-414 | each of the fifteen look-alikes, with whatever lower case leaves them as they are, is read as the letter it stands for |
| ContentFilter.OthersAreReadAsTheyAre | internal/contentfilter/filter.go:366-418 | every other rune is read as its lower case if that is a letter, a digit or a space, and skipped if not |
| ContentFilter.DisguisedPhrasesAreStarred | internal/contentfilter/filter.go:366-418 | a message that reads like a listed phrase, with any look-alikes in it and ornaments inside, is starred altogether but for its spaces |
| ContentFilter.PartsOfAWordAreKept | internal/contentfilter/filter.go:366-418 | a message of one word is unchanged unless the whole of it reads like a listed one, whatever listed words are parts of it |
| Dispatch.ResolvePublishedTrigger | internal/store/script_events.go:70-130 | the row loop returns the first row not excluded, unless the next one ties with it, or says that there is none |
| Dispatch.DispatchTrigger | internal/scriptevent/engine.go:111-148 | the recursion (a pass at 209-236 excludes the version and starts again) ends, because every round excludes one more published version, and has the outcome `StartCandidate` |
| Dispatch.DispatchRefinesPriorityScan | internal/scriptevent/engine.go:111-148 | the recursion equals one scan down the priority order, outcome by outcome, both ways: it settles on a version iff all above it passed untied and it did not; ambiguity iff two tied rows are reached; declined iff there are rows and all pass; not found iff there are none |
| Dispatch.VisitsFallInPriority | internal/scriptevent/engine.go:209-236 | the versions visited are published, not excluded, distinct and strictly fall in priority, and all but the last passed |
| Dispatch.OutcomeNamesTheLastVisit | internal/scriptevent/engine.go:111-148 | settled and declined outcomes name the last visited version, which did not pass, respectively passed; not found means that nothing was visited |
| EventState.Staging.StageEffect | internal/scriptevent/state.go:173-249 | one effect either moves the staged state to `Stage` of it and is recorded, or is refused and neither state nor record changes |
| EventState.AnswersHaveTheRegisteredKind | internal/scriptevent/state.go:31-171 | every answer a query gets has the type its function is registered with, for every registered query; `EventStateTheorems` says which answer it is |
| EventState.OnlyDrawingQueriesUseTheSource | internal/scriptevent/state.go:31-171 | only the query that draws a random number depends on the number drawn |
| EventStateTheorems.HasItemIffItCanBeRemoved | internal/scriptevent/state.go:31-249 | has_item answers true exactly when remove_item of the same item and quantity stages |
| EventStateTheorems.YenIsWhatCanBeSpent | internal/scriptevent/state.go:31-249 | the answer to yen is at least n exactly when spending n stages, for every n that can be asked for |
| EventStateTheorems.FlagsAreToldAsStaged | internal/scriptevent/state.go:31-249 | after any staged effects a flag is answered as the last command on it left it, and as at the start if there is none |
| EventStateTheorems.ProgressIsToldAsStaged | internal/scriptevent/state.go:31-249 | progress is answered with the value last set plus the increments since |
| EventStateTheorems.YenIsToldAsStaged | internal/scriptevent/state.go:31-249 | yen is answered with the start plus everything granted less everything spent since |
| EventStateTheorems.ItemsAreToldAsStaged | internal/scriptevent/state.go:31-249 | has_item of n is true exactly when the stack at the start, plus what was given, less what was removed, is at least n |
| EventStateTheorems.TheSceneStays | internal/scriptevent/state.go:31-171 | in_scene names the scene of the start, whatever was staged |
| EventStateTheorems.UnnamedIsNotAnswered | internal/scriptevent/state.go:31-171 | a flag, progress or item without a name, and less than one item, get no answer |
| EventStateTheorems.FactsAreAnsweredAsSupplied | internal/scriptevent/state.go:31-171 | the hour, actor, object and activity queries are answered if and only if the fact was supplied, with just that fact |
| EventStateTheorems.DatesAreComparedWithinAYear | internal/scriptevent/state.go:31-171 | the date query fails unless today and the day asked for exist, and else is true iff today is that day of the year or a later one |
| EventStateTheorems.RandomNumbersAreTheOnesDrawn | internal/scriptevent/state.go:31-171 | a random number is answered if and only if one was drawn between the bounds asked for, and is that number |
| EventState.WholeNumber | internal/scriptevent/state.go:262-270 | a number is an integer only if it is whole and at most 2^53 - 1 in size |
| LedgerTheorems.LedgerConservation | internal/store/economy.go:82-280 | over every sequence of transactions, from any start: balance minus recorded deltas stays what it was for yen, every item, HP and experience; ledgers only grow; keys stay unique; a purchase is charged once; balances, stacks and HP stay in range |
| LedgerTheorems.BalancesAreTheLedger | internal/store/economy.go:115-280 | from an empty ledger: yen is the start plus all yen deltas and never negative, each stack is the sum of its deltas and between 1 and its limit, HP and experience are the start plus their deltas and HP stays within 0 and the maximum |
| LedgerTheorems.ReplayedSaleIsFree | internal/store/vending.go:73-212 | after any history, repeating a vending request changes nothing, returns the first purchase and is charged by exactly one ledger row |
| LedgerTheorems.TransactionStaysInRange | internal/store/progression.go:47-290 | every successful transaction other than a script commit keeps yen non-negative, stacks within 1 and their limit, HP within 0 and the maximum |
| LedgerTheorems.EffectsKeep | internal/store/script_events.go:446-592 | a committed run keeps all balances accounted for in the ledger, touches nothing but story, yen and items, records exactly its effects, and their numbers strictly ascend |
| LedgerMoves.TransactionsMoveAsAsked | internal/store/economy.go:115-280 | each successful transaction moves yen, every stack, experience and HP by exactly what was asked, the last two within their ranges, and nothing else, for all kinds of transaction |
| LedgerMoves.SalesLeaveReceipts | internal/store/vending.go:73-212 | the first sale of a request stores what was sold, at what price and whether a can was won; a later one answers with it and moves nothing |
| LedgerMoves.SucceedsIffPossible | internal/store/economy.go:115-280 | on rows in the ranges of the schema each kind of transaction succeeds if and only if its conditions hold |
| LedgerMoves.OneUndoesTheOther | internal/store/economy.go:115-280 | what was credited can be spent, what was granted consumed, what was healed taken, and the holdings are as before |
| StagingTheorems.CommitMovesAsStaged | internal/store/script_events.go:446-592 | the two implementations of the effects agree: whenever a list of effects both stages and applies, flags and progress end equal and yen and every stack move by the same amounts, a missing item counting as none, even if yen and items differed at the start |
| StagingTheorems.EffectCommitsIffStagedAndStorable | internal/store/script_events.go:446-592 | from equal holdings an effect applies if and only if it stages and the durable checks hold (known item, stack limit, key and integer format, unused ledger key): exactly where the two implementations differ |
| StagingTheorems.StoryKeysMatchTheirPattern | internal/store/migrations/001_baseline.sql:232-240 | the keys of flags and progress that the rows take are those of the pattern in the schema |
| ScriptRunTheorems.StepKeeps | internal/store/script_events.go:142-444 | each store step keeps: one active run for each character, an active run is at its character's revision, recorded effects belong to committed runs; and it changes no terminal run |
| ScriptRunTheorems.HistoryKeeps | internal/store/script_events.go:142-444 | the same for every interleaving of start, expiry, renewal, cancel, failure, completion, pass and outside transactions; from any state to any later one a terminal run is unchanged and ledgers only grow |
| ScriptRunTheorems.NoRunsAreSafe | internal/store/script_events.go:142-229 | a database in which no script has run has all of it, so that every database reached from there has |
| ScriptRunTheorems.RevisionConflictIsUnreachable | internal/store/script_events.go:375-444 | in every reachable state no commit can fail on the revision check: given the unique active run, holding the lease implies the revision |
| ScriptRunTheorems.CommitRefinesStaging | internal/store/script_events.go:375-444 | a run started, then anything at all, then committed: durable flags and progress are the staged ones, yen and items move by the staged amounts |
| ScriptRunTheorems.StepWritesEffectsOnce | internal/store/script_events.go:375-444 | in one step a run's effects are written either not at all or, by its own successful commit which turns it from active to terminal, all of them in order |
| ScriptRunTheorems.CommittedEffectsAreFinal | internal/store/script_events.go:321-444 | once a run is terminal its written effects never change again, and a cancelled, failed or expired run has none |
| ScriptRunTheorems.StoryIsItsCommits | internal/store/script_events.go:446-592 | in every history flags and progress are the committed effects told in order: nothing outside a commit touches them |
| ScriptRunTheorems.StepKeepsLedgers | internal/store/script_events.go:375-592 | script commits and outside transactions alike keep every balance accounted for and in range |
| ScriptLeases.StartHandsOverTheCharacter | internal/store/script_events.go:142-229 | every script that starts is handed its character's yen, every stack, flags, progress and revision; its scene is the trigger's area, or the character's world if that is empty |
| ScriptLeases.StartsIff | internal/store/script_events.go:142-229 | a script starts if and only if the character is there and the account's, has no run with a live lease, one candidate is best, and the token is new |
| ScriptLeases.StartTakesTheSlot | internal/store/script_events.go:142-229 | the new run is at the revision of its character, and its only active run: a lapsed one is expired, and no other run changes |
| ScriptLeases.RenewsIff | internal/store/script_events.go:280-291 | a lease moves if and only if the token is right, the run active and the lease not over, and nothing else moves |
| ScriptLeases.ClosesIff | internal/store/script_events.go:321-351 | cancelling and failing succeed if and only if the token is that of an active run, live or lapsed |
| ScriptLeases.CommitsIff | internal/store/script_events.go:375-444 | in every reachable state a commit succeeds if and only if the lease is held and live, the revision that of the run, and all effects apply |
| ScriptLeases.DisplacedRunsAreOver | internal/store/script_events.go:142-444 | a run whose character has started another never renews or commits again, in any later state |
| ScriptLeases.ActiveRunsKeepTheirCharacter | internal/store/script_events.go:142-444 | as long as a run is active, nothing but outside transactions changes its character |
| ScriptLeases.CommitAloneEqualsStaging | internal/store/script_events.go:375-444 | a run that commits with no outside transaction on its character since the start leaves yen, every stack, flags and progress equal to the staged ones |
| ScriptLeases.PlayedAloneCommitsItsState | internal/scriptevent/engine.go:150-287 | the same for every played run: what the script was last told is what the character then has |
| Store.ScriptStore.StartPublishedScriptEventExcluding | internal/store/script_events.go:142-229 | expires a lapsed run of the character, refuses a busy character, otherwise inserts the run at the character's revision and returns its state; an error leaves the database as it was |
| Store.ScriptStore.RenewScriptEvent | internal/store/script_events.go:280-291 | moves the expiry of an active, unexpired run to whoever holds its token, otherwise changes nothing |
| Store.ScriptStore.CancelScriptEvent | internal/store/script_events.go:321-333 | closes the active run of the token as cancelled, otherwise changes nothing |
| Store.ScriptStore.FailScriptEvent | internal/store/script_events.go:335-351 | closes the active run of the token as failed, otherwise changes nothing |
| Store.ScriptStore.FinishScriptEvent | internal/store/script_events.go:375-444 | lease, revision and effects in that order; on success run, revision and holdings change together, on any error nothing does |
| Store.ApplyEffects | internal/store/script_events.go:405-430 | the effect loop with its running sequence number applies all effects in order or stops at the first error |
| Store.ScriptStore.CreditYen | internal/store/economy.go:115-144 | one transaction: balance and ledger row together, or nothing |
| Store.ScriptStore.SpendYen | internal/store/economy.go:146-179 | one transaction that never overdraws |
| Store.ScriptStore.GrantItem | internal/store/economy.go:181-224 | one transaction up to the item's stack limit |
| Store.ScriptStore.ConsumeItem | internal/store/economy.go:226-280 | one transaction that removes an emptied stack |
| Store.ScriptStore.PurchaseVendingDrink | internal/store/vending.go:73-212 | debit, drink, prize and receipt in one transaction; a repeated request returns the stored receipt |
| Store.ScriptStore.GainExperience | internal/store/progression.go:47-100 | experience and its row, or nothing |
| Store.ScriptStore.ApplyHpChange | internal/store/progression.go:132-201 | the clamped change of HP and its row, or nothing |
| Store.ScriptStore.ConsumeHealingItem | internal/store/progression.go:203-290 | stack, HP and both rows in one transaction, or nothing |
| RuntimeProtocol.Session.ValidateInput | internal/scriptruntime/session.go:168-199 | accepts an input exactly when it answers what is awaited (`InputsAcceptedIffAskedFor` says what that is), and leaves the session unchanged when it does not |
| RuntimeProtocol.Session.ValidateEvent | internal/scriptruntime/session.go:201-259 | the branches over the event kinds update sequence, awaited input, query and options as the protocol says; a refused event ends the session |
| RuntimeProtocol.RuntimeHost.Handle | tools/yarn-compiler/RuntimeHost.cs:78-128 | what the host emits at each callback of the dialogue and what it then blocks on, and that it stops at a command it cannot parse or a fault of the machine |
| RuntimeProtocol.RuntimeHost.Read | tools/yarn-compiler/RuntimeHost.cs:153-190 | an input either resumes the blocked host, cancels it or stops it |
| RuntimeProtocol.RuntimeHost.NextSequence | tools/yarn-compiler/RuntimeHost.cs:199-207 | the counter grows by one and fails beyond the limit |
| RuntimeProtocol.EveryHistoryIsInLockstep | internal/scriptruntime/session.go:115-259 | after any interleaving of host callbacks, sends and receives: unread events are consecutive and well formed, and whenever nothing is unread the session awaits exactly what the host is blocked on (kind, query id, available options, sequence) |
| RuntimeProtocol.AnswersAreAcceptedOnBothSides | internal/scriptruntime/session.go:168-199 | in every reachable state an input that answers the last event read is accepted by the session and by the host |
| RuntimeProtocol.OnlyCrashesAreRefused | internal/scriptruntime/session.go:201-259 | in every reachable state, also after a fault of the host, the session refuses the next event if and only if it is the host's report that it crashed |
| RuntimeProtocol.NoDeadlock | internal/scriptruntime/session.go:115-166 | a session waiting for an event always has one to read or a host that is running |
| RuntimeProtocol.EventsAreNumberedAndBounded | tools/yarn-compiler/RuntimeHost.cs:199-207 | the events a session reads are numbered 1, 2, 3 and so on, never more than 10000 |
| RuntimeProtocol.WronglyTypedAnswersStopTheHost | tools/yarn-compiler/RuntimeHost.cs:153-169 | an answer to the right query always passes the session, and stops the host if and only if its type is not the declared one |
| RuntimeProtocol.InputsAcceptedIffAskedFor | internal/scriptruntime/session.go:168-199 | in every reachable state, with nothing unread, the session accepts an input if and only if the last event read asks for it: none after an event that asks nothing, otherwise a cancellation, continue after a line or command, a result with the number of the query, or the number of an offer of that event that is available |
| RuntimeProtocol.EventsAndQueriesAreCounted | tools/yarn-compiler/RuntimeHost.cs:78-128 | events and, apart from them, queries are numbered one after the other, and the host crashes at a break and beyond ten thousand events |
| RuntimeProtocol.HostGoesOnIffAnswered | tools/yarn-compiler/RuntimeHost.cs:153-190 | in every reachable state the host resumes if and only if the input answers the last event, in number and type; an unavailable offer would resume it, which is why the session refuses it |
| RuntimeProtocol.EventsAcceptedIffTheyMayPass | internal/scriptruntime/session.go:201-259 | an event is accepted if and only if it has the next number and passes the check of its kind, and the session then awaits what that kind asks for |
| ScriptEngine.PresentOptions | internal/scriptevent/engine.go:313-337 | options are shown iff ids are distinct, all lines have text and one can be chosen |
| ScriptEngine.ActiveEvent.RecordTrace | internal/scriptevent/engine.go:289-311 | the ordinal moves only when the step was stored |
| ScriptEngine.ActiveEvent.Handle | internal/scriptevent/engine.go:171-287 | the reaction of the loop to one event: new state and reply, or how the loop ends |
| ScriptEngine.ActiveEvent.HandleCommand | internal/scriptevent/engine.go:197-242 | the same for a command: staging, control commands, the late pass |
| ScriptEngine.ActiveEvent.ExchangeOnce | internal/scriptevent/engine.go:171-189 | one round of the loop: exchange, trace, reaction |
| ScriptEngine.ActiveEvent.RunPump | internal/scriptevent/engine.go:171-287 | the whole loop ends and leaves the run where `Pump` says |
| ScriptEngine.ExchangingAdvances | internal/scriptevent/engine.go:171-287 | every round of the loop takes the run strictly nearer the limit of 10000 events, which is why it ends |
| ScriptEngine.PlayStages | internal/scriptevent/engine.go:150-287 | whatever the player sends at each yield (also to cancel, or what the session refuses), the staged state is the fold of the recorded effects, these are the effects the script issued, and their numbers ascend, unless the run failed |
| ScriptEngine.RepliesAreProtocolAnswers | internal/scriptevent/engine.go:171-287 | every input the loop makes up by itself is an answer in the sense of the protocol, so both sides accept it |
| ScriptEngine.PlayedEffectsAreInOrder | internal/store/script_events.go:405-415 | the ordering error of the commit is unreachable for every played run |
| ScriptEngine.PlayedRunCommitsWhatTheScriptSaw | internal/scriptevent/engine.go:150-287 | start, play by any player, arbitrary interleaving in the store, commit: never a revision conflict, and what becomes durable is what the script saw staged |
| ScriptTraces.ShownIffItCanBe | internal/scriptevent/engine.go:197-287 | the loop waits for the player if and only if the event is a presentation, a line with text, or a choice whose offers are distinct, have text and can be made, and fails if it is one of these that cannot be shown |
| ScriptTraces.NothingIsSkipped | internal/scriptevent/engine.go:171-287 | between two stops of the loop, however long, the script has said nothing that a player would see |
| ScriptTraces.ExchangedIffRecorded | internal/scriptevent/engine.go:171-189 | an exchange takes place if and only if its input and its event are recorded and the session answers |
| ScriptTraces.EverythingIsTraced | internal/scriptevent/engine.go:150-311 | for every script and player: a run that commits, passes, is cancelled or fails on what its script said has recorded each event and each input, numbered without a gap |
| ScriptTraces.GoesOnByItsLease | internal/scriptevent/engine.go:150-170 | from each stop a run waits for the player, goes on if its lease is renewed, and is lost if not |
| ScriptTraces.UntracedInputsAreNotSent | internal/scriptevent/engine.go:171-180 | an input that cannot be recorded is not sent |
| ScriptEndings.RunsEndAsTheirScriptsSay | internal/scriptevent/engine.go:150-287 | for every script, player and environment: a run completes only after its script completed and had asked to; it passes only if its script passed the trigger and nothing visible came before; it ends by cancellation only if the script said so; and if nothing went wrong outside it fails only on a command, query, line or choice of its script that cannot be carried out |
| ScriptSessions.ExchangesAreCounted | internal/scriptruntime/session.go:115-166 | in every history of session and host each exchange is answered by one event, except the one still waiting and the one whose event was refused |
| ScriptSessions.ReadingIsPaced | internal/scriptruntime/session.go:115-166 | the events a session reads, by whatever course of host, sends and reads, are numbered by exchange and bounded |
| ScriptSessions.OwnRepliesAreAccepted | internal/scriptevent/engine.go:171-287 | every input the loop makes up by itself is accepted by the session and by the host that it read from, in every reachable state |
| ScriptSessions.RuntimeRunCommitsWhatTheScriptSaw | internal/scriptevent/engine.go:150-287 | the same from host to rows: a run whose events are read from the host, by any course, commits what its script saw |
| ScriptPreview.RunPreview | internal/scriptevent/preview.go:65-210 | the bounded loop of the second interpreter has the outcome `PreviewFrom` |
| ScriptPreview.RehearseEvent | internal/scriptevent/preview.go:130-208 | one event of the preview: what is staged, what is shown, which input follows, how it may end |
| ScriptPreview.PreviewSimulatesPlay | internal/scriptevent/preview.go:65-210 | on the same script, lines, facts, choices and random numbers, an undisturbed live run and the preview stage the same state and effects, send the same inputs and end alike, unless the preview reaches its 512 events |
| ScriptPreview.DeclinedPreviewPassesIffNothingWasShown | internal/scriptevent/preview.go:65-210 | a declined preview means that the live run passes, if and only if nothing was shown before |
| ScriptPreview.PreviewCanDeclineWhatFailsLive | internal/scriptevent/preview.go:65-210 | a script for which the preview is declined while the live run fails |
| ScriptTraces.PreviewsTakeUpTo512Exchanges | internal/scriptevent/preview.go:65-210 | a preview is too long only if its script still goes on after 512 exchanges, and any other takes no more |
| TravelAccess.LoadAccess | internal/travelaccess/access.go:97-139 | a manifest loads iff it is valid throughout, and the catalogue then has exactly its rules, interiors and controlled destinations |
| TravelAccess.LoadInteriors | internal/travelaccess/access.go:114-125 | interiors load iff valid and distinct |
| TravelAccess.LoadRules | internal/travelaccess/access.go:126-138 | rules load iff valid and of distinct transitions; a destination is controlled iff a rule leads to it that is not always accessible |
| TravelAccess.RulesAreRefusedForWhatTheyLack | internal/travelaccess/access.go:149-202 | a rule is refused for exactly what it may lack: a name, a reach, a boundary within the day, hours within two days of it, a lifetime |
| TravelAccess.OpenInItsHoursIffTheyFit | internal/travelaccess/access.go:149-216 | for every valid rule: at every instant the door is open exactly in today's window or in yesterday's that runs past midnight, if and only if the window lies in the day from its boundary on or covers it |
| TravelAccess.EarlyHoursAreClosed | internal/travelaccess/access.go:204-216 | a window from one to two with a day boundary at five: closed at half past one |
| HubDoors.OpenIffInTheWindow | internal/travelaccess/access.go:204-216 | for every valid rule and instant of a day: open if and only if the one time within a day of the boundary at which the clock shows that instant lies in the window |
| HubDoors.GrantedIffMayPass | internal/realtime/transitions.go:45-150 | a door is granted if and only if the request id is proper, the rule known and its source, door and destination named, the connection in the source world, on foot and within the distance, and the destination always open or the instant in the window |
| HubDoors.GrantedInItsHours | internal/realtime/transitions.go:45-150 | for hours that fit their day, a granted door is always open, or the time of day is within the hours, those of the day before that go on past midnight included |
| HubDoors.GrantIsAsAsked | internal/realtime/transitions.go:45-150 | every request drops the connection's older grant, and if granted stores just the one asked for, until the end of the rule's lifetime |
| HubDoors.GrantsLast | internal/realtime/transitions.go:45-150 | every grant is good for some time |
| HubDoors.RefusalNamesTheFirstFailure | internal/realtime/transitions.go:45-150 | the reason is that of the first check in order that fails |
| HubDoors.BegunIffMayCommit | internal/realtime/transitions.go:152-210 | a commit begins if and only if request and authorization are those of the grant, it has not run out, and the holder is in the source world, on foot and within the distance; it uses the grant up and reserves the arrival |
| HubDoors.GrantsAreGranted | internal/realtime/transitions.go:45-150 | over every run, each grant that is there was granted in an earlier step to that connection when it might pass |
| HubDoors.ArrivalsArePassages | internal/realtime/transitions.go:152-210 | over every run, each reserved arrival was begun in an earlier step by such a grant |
| HubDoors.CommitsComeFromGrants | internal/realtime/transitions.go:45-224 | over every run of a new hub, each successful commit goes back to an earlier request of the same connection that met everything the door asks, with the same ids, and begun before the grant ran out |
| HubMembersTheorems.RegisterKeepsCapacity | internal/realtime/hub.go:354-389 | connections not superseded never exceed the limit, although a replaced one stays connected |
| HubMembersTheorems.RegisterKeeps | internal/realtime/hub.go:354-389 | registering keeps the coupling of clients, presences, rooms, grants and arrivals |
| HubMembersTheorems.UnregisterKeeps | internal/realtime/hub.go:544-620 | so does disconnecting, also between the two halves of a commit |
| HubMembersTheorems.PlaceKeepsRooms | internal/realtime/hub.go:841-854 | storing a presence keeps rooms the inverse of presences with no empty room |
| HubMembersTheorems.LeaveKeeps | internal/realtime/hub.go:1039-1066 | so does leaving the world |
| HubMembersTheorems.AllowSettles | internal/realtime/transitions.go:229-278 | an accepted presence leaves its connection without a pending arrival, and with a grant only in the grant's source world |
| HubMembersTheorems.AllowKeeps | internal/realtime/transitions.go:229-278 | admitting or refusing a presence keeps the coupling |
| HubMembersTheorems.RequestKeeps | internal/realtime/transitions.go:45-150 | so does asking to pass a door, whether granted or refused |
| HubMembersTheorems.BeginCommitKeeps | internal/realtime/transitions.go:152-210 | so does the first lock section of a commit |
| HubMembersTheorems.EndCommitKeeps | internal/realtime/transitions.go:212-224 | so does the second, which reports success iff the connection is still there |
| HubPresences.LetInIffRoomOrTakeover | internal/realtime/hub.go:354-389 | a connection is let in if and only if there is room or it takes over the one its character is on |
| HubPresences.LettingInIsForTheNewcomer | internal/realtime/hub.go:354-389 | letting it in changes nothing of any other connection |
| HubPresences.TheCharacterIsTheNewcomers | internal/realtime/hub.go:354-389 | its character is then its own, and no other character changes hands |
| HubPresences.DroppingTakesAllAlong | internal/realtime/hub.go:544-620 | a connection that goes loses everything kept for it, and its character if and only if no other connection has it by now |
| HubPresences.AcceptedIffMayReport | internal/realtime/hub.go:695-984 | a presence is accepted if and only if it is well formed, newer than the last, of a known world and vehicle, and of a world the connection may be in: its arrival, an open one, its own, the one it left, or the saved one for its first |
| HubPresences.AcceptedIsStored | internal/realtime/hub.go:695-984 | an accepted presence is stored as sent, with the vehicle asked for if and only if it may be driven |
| HubPresences.RefusedChangesNothing | internal/realtime/transitions.go:229-278 | a refused presence changes nothing but an arrival, which is given up if and only if the presence was heard and not of the world the arrival comes from |
| HubPresences.AcceptedSettles | internal/realtime/transitions.go:229-278 | an accepted presence leaves no arrival, and a grant only for a door of the world it names |
| HubPresences.LeavingGivesUp | internal/realtime/hub.go:1035-1066 | leaving gives up grant, arrival and presence and remembers the world left |
| HubPresences.PresencesChangeByTheirOwn | internal/realtime/hub.go:695-1112 | over every run, a connection appears and moves only by its own accepted presence with a later number, and disappears only by its own leaving, commit or disconnect |
| HubAuthority.EntryUsesAnArrivalOrTheSavedWorld | internal/realtime/transitions.go:229-278 | every step that changes a connection's last world to a controlled interior uses up an arrival there, or is its first presence and at its saved world |
| HubAuthority.EntriesAreCovered | internal/realtime/transitions.go:152-278 | over every run, entries plus what may still be entered never exceed commits plus restorations plus what could be entered at the start |
| HubAuthority.RestoredAtMostOnce | internal/realtime/transitions.go:229-278 | a connection restores its saved world at most once |
| HubAuthority.EntriesNeverExceedCommitsAndOne | internal/realtime/transitions.go:152-278 | from a new hub, entries of a connection to a controlled interior never exceed its successful commits to it plus one |
| HubForkliftsTheorems.DriveKeeps | internal/realtime/hub.go:722-799 | a presence that takes, keeps or leaves a forklift keeps: a registered owner drives its forklift in its world, a named owner is the registered one, positive expiries are armed, spawn limits hold |
| HubForkliftsTheorems.LeaveWithKeeps | internal/realtime/hub.go:1051-1066 | so does leaving the world, which takes a spawned forklift along |
| HubForkliftsTheorems.AbandonKeeps | internal/realtime/hub.go:575-610 | so does disconnecting |
| HubForkliftsTheorems.UpdateKeeps | internal/realtime/forklift.go:193-292 | so does moving a forklift |
| HubForkliftsTheorems.SpawnKeeps | internal/realtime/forklift.go:294-346 | so does spawning one |
| HubForkliftsTheorems.FireKeeps | internal/realtime/forklift.go:44-88 | so does any expiry timer, stale or not |
| HubForkliftsTheorems.OneForkliftEach | internal/realtime/forklift.go:151-158 | a connection is the registered owner of at most one forklift |
| HubForkliftsTheorems.AnotherPresenceClearsTheOwnerIffItNamedTheForklift | internal/realtime/hub.go:722-799 | another connection's presence never changes the registered owner, and clears the owner shown in the state exactly when that connection's previous presence still named the forklift |
| HubPresences.ForkliftUpdatedIff | internal/realtime/forklift.go:193-292 | a forklift is moved if and only if it is in the world of the sender and nobody else drives it, and released if and only if the sender drives it |
| HubPresences.ReleaseIsStored | internal/realtime/forklift.go:193-292 | a release forgets the driver and gives the forklift five minutes in the race worlds, no end elsewhere |
| HubPresences.SpawnedIffThereIsAPlace | internal/realtime/forklift.go:294-346 | one is spawned if and only if its world has fewer spawned ones than places, twenty or one; it is there for five minutes until it is driven |
| HubPresences.ExpiredIffStillReleased | internal/realtime/forklift.go:44-88 | a timer removes a forklift if and only if nobody drives it and its expiry is still the one of the timer; a configured one comes back to its place |
| HubPresences.LeavingAndDropping | internal/realtime/hub.go:575-1066 | who leaves the world takes a spawned forklift along and sends a configured one home; who disconnects leaves it to expire |
| HubPresences.ClaimedIffMayDrive | internal/realtime/hub.go:722-799 | a presence gets the vehicle it asks for if and only if that is in its world and nobody else drives it |
| HubPresences.GettingOffFrees | internal/realtime/hub.go:722-799 | getting off frees the forklift, in the race worlds with an armed expiry in five minutes |
| HubPresences.GettingOnKeeps | internal/realtime/hub.go:722-799 | getting on makes it the driver's, and takes its expiry away |
| HubPresences.ForkliftsAreNeverTakenAway | internal/realtime/forklift.go:151-346 | over every run, the registered driver of a forklift changes only from nobody to a connection whose presence asks for it, and to nobody only by that driver |
| HubCargo.FreshJob | internal/realtime/cargo.go:292-299 | the search for an unused job id ends and finds the first one |
| HubCargo.NextJob | internal/realtime/cargo.go:292-299 | the loop itself returns that id and where to go on |
| HubCargoTheorems.MarkKeeps | internal/realtime/cargo.go:11-30 | marking a leaving player's cargo keeps everything that is kept of each cargo: releasable, auto-righting and replacement armed, side maps within the cargo, at most one unreplaced descendant of each spawn |
| HubCargoTheorems.ClaimKeeps | internal/realtime/cargo.go:319-367 | so does claiming |
| HubCargoTheorems.UpdateKeeps | internal/realtime/cargo.go:369-481 | so does moving |
| HubCargoTheorems.ReleaseKeeps | internal/realtime/cargo.go:32-69 | so does a release timer, stale or not |
| HubCargoTheorems.AutoRightKeeps | internal/realtime/cargo.go:118-171 | so does an auto-right timer |
| HubCargoTheorems.CleanupKeeps | internal/realtime/cargo.go:173-233 | so does a cleanup timer |
| HubCargoTheorems.ReplenishKeeps | internal/realtime/cargo.go:254-317 | so does a replenishment timer |
| HubCargoTheorems.ReplenishKeepsLineage | internal/realtime/cargo.go:278-317 | a replenishment either adds exactly one cargo and marks a source not marked before, or changes nothing; each spawn keeps at most one unreplaced descendant |
| HubCargoTheorems.AbandonedCargoCanBeFreed | internal/realtime/cargo.go:32-69 | whenever cargo has an owner not beside it, an armed timer exists whose firing frees it |
| HubCargoTheorems.UntouchedCargoIsRighted | internal/realtime/cargo.go:102-171 | whenever cargo waits to be righted, an armed timer exists whose firing, once due, rights and frees it |
| HubCargoTheorems.DistantCargoIsReplaced | internal/realtime/cargo.go:235-317 | whenever cargo is away from its spawn and not replaced, an armed timer exists whose firing, once due, puts a new cargo on the spawn |
| HubCargoClaims.ClaimedIffFree | internal/realtime/cargo.go:319-367 | a claim is granted if and only if the claimant is on a forklift in the cargo's world within six units, and the cargo is free, the claimant's own, or its claim has lapsed; then only its owner and claim change |
| HubCargoClaims.HeldCargoIsRefused | internal/realtime/cargo.go:343-349 | a claim on cargo of another driver whose claim has no end, or one in the future, is refused and changes nothing |
| HubCargoClaims.MovedIffOwned | internal/realtime/cargo.go:369-481 | an update is accepted if and only if it is well formed and comes from the owner in the world of the cargo |
| HubCargoClaims.MoveIsStored | internal/realtime/cargo.go:369-481 | an accepted update moves just this cargo to where it says, and gives the claim an end when it is no longer touched |
| HubCargoClaims.CargoChangesHandsOnlyAsAllowed | internal/realtime/cargo.go:11-481 | over every run of a new hub: cargo passes from one driver to another only by the claim of the second after the claim of the first has lapsed; only its owner moves it; a claim is given an end only by the owner letting go or going away; and cargo loses its owner, or goes, only by a timer whose conditions hold |
| HubCargoTimers.GoneDriversHaveHalfASecond | internal/realtime/cargo.go:11-30 | what a driver who goes away holds stays his for half a second more and counts as untouched from then on, and nothing else changes |
| HubCargoTimers.GoneDriversArmTimers | internal/realtime/cargo.go:11-30 | and timers are armed to free it then, to right it in two seconds and to clear it away in ten minutes |
| HubCargoTimers.FreedIff | internal/realtime/cargo.go:32-69 | a release timer frees the cargo if and only if owner and claim are still its own and the owner is not beside it |
| HubCargoTimers.RightedIff | internal/realtime/cargo.go:138-171 | cargo is righted, and nobody's, if and only if it has been untouched since then, for at least two seconds |
| HubCargoTimers.ReplacedIff | internal/realtime/cargo.go:278-317 | cargo is replaced if and only if it has been further than three units away since then, for at least three seconds, and was not replaced before; the replacement is at its spawn under a number nothing has |
| HubCargoTimers.ClearedIff | internal/realtime/cargo.go:203-233 | cargo is cleared away if and only if nobody owns it, nobody touched it since then, for at least ten minutes, and its world has more than fifty |
| HubCargoTimers.TouchesAreNoted | internal/realtime/cargo.go:102-201 | cargo is untouched since the first update without touch after the last one with it, and timers are armed then only |
| HubCargoTimers.DistanceIsNoted | internal/realtime/cargo.go:235-276 | cargo is away since the first update that left it further than three units from its spawn, with no nearer one since, and a timer is armed then only |
| HubCargoTimers.LettingGoGivesHalfASecond | internal/realtime/cargo.go:369-481 | a claim ends half a second after the first update without touch, and has no end after one with it |
| HubCargoTimers.ClaimingTouches | internal/realtime/cargo.go:319-367 | claimed cargo no longer waits to be righted |
| HubTheorems.StepKeeps | internal/realtime/hub.go:354-1141 | every step of the hub keeps all of the above together |
| HubTheorems.NewHubIsConsistent | internal/realtime/hub.go:201-237 | a new hub has it |
| HubTheorems.InEveryRun | internal/realtime/hub.go:354-1141 | every run of a new hub: rooms are exactly the inverse of presences, at most the limit of connections, grants held at their door, arrivals without presence or grant, owners drive their forklift, spawn limits, owned cargo beside its owner or with an armed release of exactly its owner and expiry |
| HubTheorems.ReplacedAtMostOnce | internal/realtime/cargo.go:203-317 | over every run of a new hub each cargo is replaced at most once, and cargo that was replaced or cleared away never again, however the run goes on: cleanup forgets the mark, but job numbers are not given out twice |
| HubServer.Hub.Register | internal/realtime/hub.go:354-389 | the maps after registering, or refusal when full |
| HubServer.Hub.RemoveFromRoom | internal/realtime/hub.go:1127-1141 | the room loses the connection and goes when empty |
| HubServer.Hub.Unregister | internal/realtime/hub.go:544-620 | every map after a disconnect |
| HubServer.Hub.HandlePresence | internal/realtime/hub.go:695-984 | every map after a presence, and whether it was accepted |
| HubServer.Hub.AdmitPresence | internal/realtime/hub.go:745-870 | the same once the message was heard |
| HubServer.Hub.Drive | internal/realtime/hub.go:722-799 | owners, states and timers after a presence changes vehicle |
| HubServer.Hub.LeaveSection | internal/realtime/hub.go:1039-1066 | every map after leaving, and whether there was a presence |
| HubServer.Hub.LeaveWorld | internal/realtime/hub.go:1035-1066 | the same with pending arrivals dropped |
| HubServer.Hub.AllowPresenceDestination | internal/realtime/transitions.go:229-278 | whether the world may be entered, and which grants and arrivals remain |
| HubServer.Hub.HandleTransitionRequest | internal/realtime/transitions.go:45-150 | the refusal in the source's order of checks, or the grant; `HubDoors` says which requests get it |
| HubServer.Hub.BeginTransitionCommit | internal/realtime/transitions.go:152-210 | the grant becomes a reserved arrival, or the refusal |
| HubServer.Hub.EndTransitionCommit | internal/realtime/transitions.go:212-224 | leaving with the arrival kept, or failure if the connection went in between |
| HubServer.Hub.HandleForkliftUpdate | internal/realtime/forklift.go:193-292 | the stored state, its world and owner, or refusal |
| HubServer.Hub.DynamicForkliftCount | internal/realtime/forklift.go:33-42 | the loop counts the spawned forklifts of a world |
| HubServer.Hub.HandleForkliftSpawn | internal/realtime/forklift.go:294-346 | the new forklift and its timer, or refusal at the limit |
| HubServer.Hub.FireForkliftTimer | internal/realtime/forklift.go:44-88 | only the expiry still stored takes effect |
| HubServer.Hub.ReleaseForklift | internal/realtime/forklift.go:151-158 | the owner is forgotten iff it is the one named |
| HubServer.Hub.MarkClientCargoForRelease | internal/realtime/cargo.go:11-30 | the loop over the cargo marks exactly the client's, in whatever order, and arms their timers |
| HubServer.Hub.HandleCargoClaim | internal/realtime/cargo.go:319-367 | owner and expiry, or refusal; `HubCargoClaims` says which claims get it |
| HubServer.Hub.HandleCargoUpdate | internal/realtime/cargo.go:369-481 | cargo, side maps and timers after a move, or refusal |
| HubServer.Hub.CleanUpCargo | internal/realtime/cargo.go:203-233 | removes cargo untouched since, if the world keeps another |
| HubServer.Hub.ReplenishCargo | internal/realtime/cargo.go:278-317 | adds the replacement if the source is still away since then |
| HubServer.Hub.ReleaseCargoClaim | internal/realtime/cargo.go:32-69 | frees cargo still of that owner and expiry |
| HubServer.Hub.AutoRightCargo | internal/realtime/cargo.go:138-171 | rights and frees cargo still untouched since then |
| HubServer.Hub.FireCargoTimer | internal/realtime/cargo.go:32-276 | dispatch of any armed cargo timer |
| RateLimits.PresencesAreBounded | internal/realtime/client.go:232-246 | over every history of attempts, accepted presences in [a, b] are at most 5 + 20(b - a) |
| RateLimits.ChatsAreBounded | internal/realtime/client.go:248-275 | over every history, accepted chats are at most 15 in [a, a + 60) and 3 in [a, a + 10), for every a |
| RateLimits.SoundsAreBounded | internal/realtime/client.go:288-304 | over every history, accepted horn sounds are at most 8 in [a, a + 1), for every a |
| RateLimits.WindowsAreHalfOpen | internal/realtime/client.go:248-275 | the windows exclude their far end: a chat exactly ten seconds after three others is accepted |
| RateLimits.FiveAtOnceAreAccepted | internal/realtime/client.go:232-246 | the first five presences are accepted however close they are |
| RateLimits.PacedAttemptsAreAccepted | internal/realtime/client.go:232-246 | over every history a presence at least a twentieth of a second after the attempt before it is accepted |
| RateLimits.ChatAcceptedIffThereIsRoom | internal/realtime/client.go:248-275 | over every history a chat is accepted if and only if fewer than fifteen were in the last sixty seconds and fewer than three in the last ten |
| RateLimits.SoundAcceptedIffThereIsRoom | internal/realtime/client.go:288-304 | over every history a sound is accepted if and only if fewer than eight were in the last second |
| RateLimits.Limiter.AllowPresence | internal/realtime/client.go:232-246 | tokens and time after an attempt, and whether it was accepted |
| RateLimits.Limiter.FilterInPlace | internal/realtime/client.go:251-258 | the in-place filter keeps exactly the entries after the cutoff, in order |
| RateLimits.Limiter.AllowChatMessage | internal/realtime/client.go:248-275 | both windows are checked and the chat recorded iff accepted |
| RateLimits.Limiter.AllowForkliftSound | internal/realtime/client.go:288-304 | the same for sounds |
| NpcRoute.MeasureRoute | internal/npc/route.go:13-19 | the loop adds up the segments |
| NpcRoute.SampleRoute | internal/npc/route.go:21-58 | the loop over the remaining distance finds segment, progress, position and heading |
| NpcRoute.SampleInvertsLength | internal/npc/route.go:21-58 | length before the segment plus progress along it is the distance cut to the route, zero-length segments included |
| NpcRoute.SamplingIsLipschitz | internal/npc/route.go:21-58 | two samples are no further apart, in space or on the ground, than their distances along the route |
| NpcRoute.Triangle | internal/npc/vector.go:23-32 | triangle inequality of the distance |
| NpcRoute.HorizontalIsShorter | internal/npc/vector.go:34-36 | the distance on the ground is at most the distance in space |
| NpcSchedule.EvaluateSchedule | internal/npc/interpreter.go:91-377 | the journey that has started last, its secondary rounds if it has any, else the loop over its operations, end in the state `Evaluate` |
| NpcSchedule.CircleInPlace | internal/npc/secondary.go:8-153 | the state of a secondary controller, or none |
| NpcCircuit.CollectPhases | internal/npc/secondary.go:34-70 | the loop over the rounds builds their phases and adds up the duration of a cycle |
| NpcCircuit.FindSpot | internal/npc/secondary.go:79-90 | the search loop ends in the first phase that the time falls in |
| NpcSchedule.PerformInPlace | internal/npc/interpreter.go:154-377 | one operation: what it does to state and descriptor clock, and whether evaluation stops there |
| NpcSchedule.ActivateInPlace | internal/npc/interpreter.go:241-311 | the activation operation with its handoff and release times |
| NpcSchedule.JourneyAt | internal/npc/interpreter.go:120-132 | the last journey that has started by then, none if none has |
| NpcSchedule.NormalizedSecond | internal/npc/interpreter.go:116-119 | a time of day, also for times before midnight of the first day |
| NpcSchedule.RouteSpeed | internal/npc/interpreter.go:15-31 | never negative |
| NpcScheduleTheorems.FollowTwice | internal/npc/interpreter.go:313-350 | two evaluations of one journey at two times that end on the same route operation are at samples of that route no further apart than the speed allows, whatever operations came before |
| NpcScheduleTheorems.SameLegIsNoJump | internal/npc/transitions.go:7-34 | two evaluations on one day that walk the same route operation of one journey, or the same phase of the same round of its secondary controller, are never a discontinuity, as long as the second is not for more than a second earlier |
| NpcScheduleTheorems.CircleTwice | internal/npc/secondary.go:74-151 | two times in one phase of one round put the actor no further apart than its speed in game seconds allows, pauses and handoffs included |
| NpcCircuit.SpotTwice | internal/npc/secondary.go:79-90 | the search for the phase is monotone: later times come in the same phase or a later one, and in the same phase no more time passes within it than passes |
| NpcOperations.WaitingEndsOnTime | internal/npc/interpreter.go:175-240 | waits, gates and time controls are over at their second and not before, the next operation begins then, and only a gate without a time fails |
| NpcOperations.OthersTakeNoTime | internal/npc/interpreter.go:154-377 | all others but routes take no time |
| NpcOperations.PaceIsByStepAndRate | internal/npc/interpreter.go:15-31 | the speed of a route is its own step, or else the actor's, times thirty, in game time, and zero without a step or a rate |
| NpcOperations.RouteEndsOnTime | internal/npc/interpreter.go:313-350 | a route is left once the time to walk its length at its speed is over, at its end; until then its actor is as far along as that speed takes it |
| NpcOperations.WalksEndOnTime | internal/npc/interpreter.go:313-350 | a walk is left when its route has been walked since the end of the operation before; without a route or a pace it is never left, and unseen |
| NpcOperations.ActivationsAreOnTime | internal/npc/interpreter.go:241-311 | an activated actor stands until the later of its activation and the minimum delay after the journey began |
| NpcOperations.ActivatedActorsHandOffOnTime | internal/npc/interpreter.go:241-311 | it walks its controller from then, its handoff from the end of that, and goes on from the end of the handoff at the second when both have been walked |
| NpcOperations.OperationsDoAsTheySay | internal/npc/interpreter.go:154-377 | what entering an area, being placed, appearing and disappearing, and resting change, and that they change nothing else |
| NpcOperations.ArrivingIsSeen | internal/npc/interpreter.go:154-163 | an operation puts its actor where its figure stands, and only that |
| NpcOperations.InactiveActorsAreNotSeen | internal/npc/interpreter.go:365-377 | an actor that is not active is not seen wherever an operation stops it, and stays inactive until one activates it |
| NpcOperations.WalksAreInTheirArea | internal/npc/interpreter.go:313-350 | a walk is in the world of its area, or goes on in the one its actor is in |
| NpcOperations.DaysBeginNowhere | internal/npc/interpreter.go:91-132 | before its first journey an actor is nowhere |
| NpcOperations.DaysAreAlike | internal/npc/interpreter.go:116-119 | times whole days apart are one time of day |
| NpcOperations.JourneysBegin | internal/npc/interpreter.go:98-153 | a journey begins in the actor's own area at its own second |
| NpcOperations.LastStartedJourneyIsFollowed | internal/npc/interpreter.go:120-153 | of journeys without rounds the last that has started is followed from its beginning |
| NpcOperations.OperationIsLeftForGood | internal/npc/interpreter.go:154-377 | an operation that is over at one second is over in the same way at every later one |
| NpcOperations.JourneysOnlyGoOn | internal/npc/interpreter.go:154-377 | as the day goes on a journey never goes back to an earlier operation |
| NpcOperations.RoundsRepeat | internal/npc/secondary.go:74-151 | one cycle later, and any number of cycles, an actor on its rounds is in the same place and state |
| NpcOperations.SpotFollowsEarlierPhases | internal/npc/secondary.go:79-90 | the time within the phase found and the durations of all phases before it add up to the time looked for |
| NpcOperations.PhasesEndAtTheirTracksEnd | internal/npc/secondary.go:34-70 | each phase that walks comes to the end of its track just when it ends; pauses are there all the time, for two updates, or three in the last round |
| NpcOperations.RoundsAreInTheAreaEnteredLast | internal/npc/secondary.go:18-32 | rounds are in the area the journey enters last, or the actor's own if it enters none |
| NpcOperations.RoundsBeginWithTheJourney | internal/npc/secondary.go:74-90 | rounds begin at the start of their first track when the journey begins |
| NpcOperations.RoundsGoOnInRealTime | internal/npc/secondary.go:74-151 | and go on in real time: leg, mode, distance, object and speed are those of the phase found |
| NpcTick.CrowdEngine.Tick | internal/npc/engine.go:139-341 | every runtime after a tick, whether it fails, and that a failing tick does not move the last time |
| NpcTick.CrowdEngine.AdvanceAll | internal/npc/engine.go:163-207 | the first loop, which stops at the first actor without a state |
| NpcTick.CrowdEngine.SettleAll | internal/npc/engine.go:209-338 | the second loop, over all actors |
| NpcTick.CrowdEngine.RestoreCheckpoints | internal/npc/engine.go:91-116 | known actors get day and delay of their last checkpoint, the others stay |
| NpcTick.CrowdEngine.ResetScheduleState | internal/npc/engine.go:122-137 | all runtimes and the last time start again |
| NpcTick.CrowdEngine.Checkpoints | internal/npc/engine.go:384-402 | one checkpoint for each actor, in order, with its day and delay |
| NpcTickTheorems.EveryRunIsSound | internal/npc/engine.go:139-341 | over every run of ticks, restores and resets: delay is not negative, the offset lies on the segment from zero to a target no longer than 1, equals it while passing, is zero when not avoiding, and an avoiding actor holds no blocker |
| NpcTickTheorems.ChosenOffsetIsShort | internal/npc/avoidance.go:124-155 | the chosen side offset has length at most 1, whatever the obstruction |
| NpcTickTheorems.MovingOnStaysOnTheWay | internal/npc/avoidance.go:107-119 | moving towards the target stays on the segment |
| NpcTickTheorems.MovingBackStaysOnTheWay | internal/npc/avoidance.go:45-71 | so does moving back |
| NpcTickTheorems.DelayIsCountedTime | internal/npc/engine.go:139-341 | over any ticks of one day, failed or not, delay grows by exactly the game time spent blocked or sidestepping plus what failing ticks counted of it, and effective time by the rest |
| NpcTickTheorems.DelayIsFrozenTimeIffNoFailureCountedIt | internal/npc/engine.go:163-207 | delay is exactly the time spent frozen if and only if no failing tick of the day got to the actor while it was frozen and game time had passed; then effective time never goes back |
| NpcTickWitnesses.FailedTickTurnsTheScheduleBack | internal/npc/engine.go:139-341 | a new engine, ticks at 19, 21 and 31, the second of which fails on the other actor: a walker frozen for 12 seconds is 14 late, its effective second has gone from 19 to 17, and it is annotated as having jumped on its own route |
| NpcTickTheorems.SameRouteIsNeverAJump | internal/npc/engine.go:343-354 | two successive successful ticks of a day at one pace, any failing ticks between them, whatever was in the way: an actor on the same route operation or in the same phase of its rounds, on one day of its schedule and at most a second earlier in it, is not annotated as a discontinuity |
| NpcTickWitnesses.ChangedPaceIsAJump | internal/npc/engine.go:154-158 | the same two ticks with another pace at the second: the actor is annotated as a discontinuity on its own route |
| NpcTickWitnesses.MidnightIsAJump | internal/npc/engine.go:91-116 | a delay restored beyond the time of day: the actor is annotated as a discontinuity on its own route when its schedule starts again |
| NpcTickTheorems.TickAt | internal/npc/engine.go:139-341 | in a successful tick each actor advances and settles once, independent of the others' order |
| NpcTickTheorems.ChosenSideIsClearer | internal/npc/avoidance.go:124-155 | the side chosen is perpendicular to the direction of travel, one unit away, and scores at least as much as the other; of equal ones the stable choice decides |
| NpcEncounters.BlockedActorsWait | internal/npc/engine.go:209-338 | an actor in the way of somebody waits from when it first was, and steps aside after one second for an actor, fifteen for a player |
| NpcEncounters.ReleasedActorsGoOn | internal/npc/engine.go:209-338 | once its way is clear it goes on half a second after a player, two after an actor, unless it has waited long enough to step aside |
| NpcEncounters.EncountersAreForgotten | internal/npc/engine.go:209-338 | an encounter is forgotten two seconds after the way was clear |
| NpcEncounters.AsideUntilClear | internal/npc/engine.go:209-338 | an actor beside its way returns once that was clear for half a second, and goes aside again if it is not |
| NpcEncounters.StepsAreMeasured | internal/npc/avoidance.go:107-119 | a step has exactly the length it may have, or ends at its goal |
| NpcEncounters.SidestepsTakeTheirTime | internal/npc/avoidance.go:18-71 | stepping aside and back go one unit a second and end at their goal |
| NpcEncounters.OthersStay | internal/npc/avoidance.go:18-71 | an actor that is not stepping, or for which no time passes, stays as it is |
| NpcEncounters.DaysStartAfresh | internal/npc/engine.go:163-207 | a new day begins without delay or encounter; on the same day exactly blocked and sidestepping actors fall behind, by the game time passed |
| NpcEncounters.ShownAsScheduledBeforeTheDelay | internal/npc/engine.go:163-341 | an actor is shown where its schedule was as long ago as its delay, with its sidestep, as blocked if it would walk and may not |
| NpcEncounters.VariantsLastADay | internal/npc/engine.go:163-207 | the variant is chosen once a day; without one, or one that the actor has not, there is no state |
| NpcEncounters.TimeIsCountedWithinADay | internal/npc/engine.go:139-162 | the times counted are those since the last successful tick, and zero at the first one, across days, backwards or beyond a day |
| NpcEncounters.JumpsAreAnnouncedIffTooFar | internal/npc/transitions.go:7-34 | a jump is announced if and only if both positions are seen in one world and further apart than the faster of the two paces takes an actor in the time between, at least a second, and a twentieth of a unit; its kind is by rounds and object |
| NpcEncounters.ResetsForget | internal/npc/engine.go:122-137 | a reset makes every actor new but for what was last shown of it, and forgets the clock |
| NpcEncounters.RestartKeepsDaysAndDelays | internal/npc/engine.go:91-402 | restoring what was saved gives every actor its day and delay again, and no encounter |
| ScriptVersions.Rows.WriteRow | internal/store/migrations/001_baseline.sql:20-131 | the triggers on version rows, immutability and moves (20-69) and archived scripts (122-131): which row changes are accepted |
| ScriptVersions.Rows.SaveYarnScriptDraft | internal/store/scripts.go:634-691 | only an editable draft at the given revision changes |
| ScriptVersions.Rows.CreateScriptVersion | internal/store/scripts.go:733-842 | a draft copy under a fresh number, for an owner, an editor, or a reader who starts from what is current and becomes an editor |
| ScriptVersions.Rows.SubmitScriptVersion | internal/store/scripts.go:844-873 | only a validly compiled draft of the current compiler goes to review |
| ScriptVersions.Rows.PublishTransaction | internal/store/scripts.go:893-931 | the published version is superseded, the reviewed one published and the pointer moved, or nothing changes |
| ScriptVersions.Rows.PublishNewest | internal/store/official_scripts.go:150-191 | the same for the version just imported |
| ScriptVersions.Rows.RollbackTransaction | internal/store/script_rollbacks.go:80-200 | the rechecks, the copy under a fresh number and its publication, or nothing |
| ScriptVersions.Rows.ImportOfficialYarnScript | internal/store/official_scripts.go:44-199 | an import with the recorded hash, compiler, schema, provenance and identifiers of the current version does nothing, another one inserts and publishes |
| ScriptVersionTheorems.HistoryKeeps | internal/store/scripts.go:577-931 | over every history: at most one published version and it is the current pointer; statuses only move forward; source and program of a version past draft never change; reviewed, published and superseded Yarn versions compiled validly |
| ScriptVersionTheorems.NewScriptsAreOrderly | internal/store/scripts.go:577-632 | new scripts start that way |
| ScriptVersionTheorems.RollbackRepublishes | internal/store/script_rollbacks.go:16-200 | whatever happened between check and transaction, a rollback publishes the target's content under a fresh number, and the target row stays as it is, superseded |
| ScriptVersionTheorems.ImportIsIdempotent | internal/store/official_scripts.go:44-199 | importing twice is importing once |
| ScriptVersionTheorems.ImportPublishesTheContentUnlessTheHashIsStale | internal/store/official_scripts.go:120-191 | after a successful import the published content is the imported one, except exactly when the current version matches it in recorded hash, compiler, schema, provenance and identifiers, but not in content |
| ScriptVersionTheorems.RepeatedImportLeavesAnEditedCopy | internal/store/official_scripts.go:120-144 | import, copy, edit, submit, publish, import again: the edited text stays published if and only if it was built by the same compiler and schema and names the same identifiers; otherwise the import is published |
| ScriptVersionTheorems.UneditedImportsPublishTheContent | internal/store/official_scripts.go:120-191 | over every history of an official script in which no draft is saved, an import publishes what it brings |
| ScriptEditing.SavesIff | internal/store/scripts.go:634-691 | a save goes through if and only if owner or editor saves a Yarn draft of a live script at the revision it was read; then only this row changes, to the next revision |
| ScriptEditing.CreatesIff | internal/store/scripts.go:733-842 | a version is created if and only if it starts from a Yarn version and the account works on the script, or, not being a reviewer, starts from what is current and joins as an editor; the draft is a copy and no row changes |
| ScriptEditing.SubmitsIff | internal/store/scripts.go:844-873 | a draft goes to review if and only if owner or editor submits it and, for Yarn, it compiled under the current compiler and schema |
| ScriptEditing.PublishesIff | internal/store/scripts.go:875-931 | in every reachable state a version is published if and only if a moderator publishes it from review, checked, on a live script; the current one gives way and no other row changes |
| ScriptEditing.RollsBackIff | internal/store/script_rollbacks.go:80-200 | in every reachable state a rollback goes through if and only if a moderator rolls a live community script back whose current version is the planned one and whose target is superseded |
| ScriptEditing.PlannedIff | internal/store/script_rollbacks.go:16-79 | a rollback is planned if and only if the target is a superseded Yarn version other than the current one, not blank, that still compiles |
| ScriptEditing.RolledBackAsImported | internal/store/script_rollbacks.go:80-200 | what it publishes is a copy with the target's provenance and recorded hash |
| ScriptEditing.OwnersArchive | internal/store/scripts.go:172-210 | a script is archived and brought back by its owners only, and whoever creates it is one |
| ScriptEditing.ImportsIff | internal/store/official_scripts.go:44-199 | an official import goes through if and only if the script is official, it compiled, and it is there already or the script is not archived; if there already nothing changes, otherwise a new version is published |
| ScriptEditing.RecoveredOnce | internal/store/scripts.go:933-994 | a recovered document becomes the reference of its script once; importing it again changes nothing |
| ScriptEditing.CurrentChangesOnlyByPublishing | internal/store/scripts.go:577-931 | over every history another version becomes current only by a moderator's publication from review or rollback, or by an official import, and never while the script is archived |
| ScriptEditing.OneSavePerRevision | internal/store/scripts.go:634-691 | of two saves from one revision at most one goes through, whatever happens in between |
| ScriptEditing.PublishedAsSubmitted | internal/store/scripts.go:844-931 | what was sent to review keeps its content and build in every later state |

## Left out

- HTTP, websockets, JSON, SQL text, child processes, logging and the bridge to other services: input and output.
- The script virtual machine and compiler: any source of events that the host can emit.
- Fan-out of messages to recipients, snapshots, player names, pending locations and the activity log of the hub.
- Orientations and velocities of players, vehicles and cargo: the checks on numbers are one flag of a message, and
  how cargo is turned upright is not modelled, only that it is.
- `HubServer.Hub`: the source's fifteen maps are three records of maps, each replaced by the section that changes it;
  aliasing between maps is not captured.
- `NpcTick.CrowdEngine`: runtimes are values in a map, not shared pointers.
- The set of runs in the engine's memory, and the trace table of a run.
- Rounding of floating point numbers: all arithmetic is exact.
- Geometry of obstruction and clearance: blockers and the choice of side are arbitrary at every tick.
- Accumulated appearance of an actor, motion and yaw, revisions and corrections, and how a schedule variant is selected:
  these do not decide where an actor is on its route.
- NpcTickTheorems.SameRouteIsNeverAJump: at one pace of the game clock, on one day of the actor's schedule and not back by
  more than a second, because beyond these an actor can really jump: `NpcTickWitnesses` has a run for each.
- Hashes: content is compared, and a recorded hash is the content it was computed from. Collisions are not modelled.
- Moderation events, dependency indexes and test fixtures of script versions, and the lookup of a
  script by its slug; versions of one script are modelled at a time.
- The reads that precede publication and rollback outside their transactions are modelled as results from any earlier state.
- Limits on vending and diagnostic messages, and the level curve: one-branch facts.
