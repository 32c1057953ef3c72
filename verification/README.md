# Midnight Council: the room, its actor, its limiters and its reliable events

This project models the server-authoritative core of Midnight Council and proves what its pieces promise.

* **The room** (`RoomModel`, `RoomInvariant`, `RoomSteps`, `RoomRuns`, `Timeouts`, `Nights`, `Ballots`, `Seats`, `Ownership`,
  `Cursors`, `Listing`, `Views`).
  `RoomModel.Step` says what one event makes of a room, without loops or iteration orders: who dies at night,
  who is executed and who has won are properties of the night's actions, the ballots and the living seats.
  `RoomInvariant.Inv` holds in every reachable room, and the lemmas of the other modules say what follows from it for
  every run of events, at any clock readings, from any senders.
* **What the room promises, apart from how it is computed** (`Acceptance`, `Laws`, `Outcomes`, `Deadlines`, `Deal`, `Phases`,
  `Chronicle`, `Provenance`). Which events are taken, in one table; what any event makes of a seat, of the owner and of the
  rules in force, field by field; what comes of a night by the roles of those who chose, and of a vote by its ballots; that
  a deadline does what the missing players passing or abstaining would; that the draws can deal any arrangement; what begins
  with a phase and what is added to the record; and, over runs, whose word a ballot, a night's choice and a token are. These
  statements cut across the events and speak of rooms before and after, in terms of their own.
* **Secrecy** (`Secrets`). Two runs in which the others' roles, tokens, night actions, ballots and findings may all
  differ, and even who of them acts and who is refused, tell a participant the same, message by message, as long as
  they agree in what the program means to give away.
* **The room as the program keeps it** (`RoomState`, `NightOrder`, `Rules`, `Settings`, `Order`). Class `State` has
  the program's fields, maps updated in place, scratch tables, counting loops, map iteration in an arbitrary order and
  a log capped at 100 entries. Each method is proved equal to the corresponding part of `RoomModel`, and `State.Apply`
  to `RoomModel.Step`; a ghost `history` is the log had it not been capped. `State.Valid` says that the fields hold a
  reachable room, so whatever is proved of reachable rooms holds of every `State` an `Actor` ever has.
* **The actor** (`Streams`, `Actor`, `Attendance`, `Subscriptions`, `Freshness`, `Takeover`). Class `Actor` holds a `State`, the subscribers and a
  queue of at most 16 messages for each channel ever made. Sending on a closed or full channel and closing a closed
  one are calls whose preconditions are proved to hold. `Broadcast` is recursive, as in the program;
  `Streams.IsBroadcast` says what one makes of everything it touches: what is posted and in which order, who is
  dropped, what each channel has been sent, and the room. `Attendance.Did` says what each command of the loop makes of
  channels and room, and `Attendance.Serve` runs any sequence of commands on an `Actor`. Over all such runs `Subscriptions`
  says who is subscribed and why a subscription ends, and `Freshness` that nobody subscribed is left with a stale room.
* **The limiters** (`TokenBucket`, `Admission`), over exact numbers, for any clock readings in the bucket's case and for
  times that do not go back in the admission table's case.
* **Reliable events** (`Browser`, `Delivery`, `Progress`, and the end of `Cursors`). `Browser.App` is the page's queue, counter and stored
  session; `Delivery` puts the page, any number of connections that may lose whatever is on the way, and the server with
  the seat's cursor into one transition system, and `Progress` says what one undisturbed connection brings about.

Ids are values with a total order, 0 standing for the empty string. Times and durations are integers (nanoseconds) in the
room and exact numbers (seconds) in the limiters. A random token, the draws of a shuffle, a clock reading and a new
subscription id are inputs.

## What the proofs turned up

* `return_to_waiting` sent by an owner while nobody seated is connected removes every seat and leaves the owner's id in
  place (`internal/room/state.go:894-918`). `Ownership.OwnerIsLostOnlyByAbandoning` shows this is the only event that breaks
  ownership, and `Ownership.OwnerCanBeLost` reaches such a room from a new one. The loss lasts until a seated player joins
  again, somebody joins as a player under the owner's id, or that id names an owner or returns a game to waiting with somebody
  connected, and no other event ends it (`Ownership.OwnerIsFoundExactly`, over runs `Ownership.OwnerIsLostOverRuns`); a
  newcomer under any other id does not own the room.
* Being subscribed does not mean being shown as connected. Over any run of the actor's commands a seated participant is shown
  as not connected exactly if they have departed or been dropped and not joined since (`Attendance.AwayOverRuns`). So a command
  leaves somebody subscribed and seated but not connected exactly if one who is away subscribes, or a departure is dispatched
  for one who keeps a subscription (`Attendance.AttendanceIsLostExactly`); kicks, unsubscribing, timers and reading never do.
  The first happens to a page that reconnects: it joins before it subscribes (`internal/ws/handler.go:152-163`), and if its old
  connection unsubscribes in between, with no other command between the three, its departure counts (`Takeover.TakeOver`). With
  nobody else connected the owner's next `return_to_waiting` then empties the room (`Takeover.ConnectedOwnerIsLost`). Both are
  reached from a new actor (`Takeover.SubscribedAndAway`, `Takeover.OwnerIsLost`).
* Neither "rejected" nor "duplicate" says whether an event was applied. "rejected" is untrue exactly when the rate
  limiter or the chat filter answers (`internal/ws/handler.go:220-246`) before the cursor of an event already applied
  is looked at (`Delivery.RejectedIsUntrueExactly`, `Delivery.RejectedMayBeApplied`). "duplicate" is untrue exactly
  when a later number was applied while the event had been turned away or refused at every attempt
  (`Delivery.DuplicateIsUntrueExactly`); of the first "duplicate" about an event this is when everything said of it
  before was "rejected" (`Delivery.FirstDuplicateIsUntrueExactly`), but not of a later one
  (`Delivery.DuplicateMayNeverBeApplied`). Either way the event leaves the page's queue.
* The same phase timeout can be accepted twice, exactly when some event in between begins a phase at a clock reading at least
  that phase's duration before the timeout's (`Timeouts.TimeoutIsAcceptedAgainExactly`); not while the clock does not go back
  behind the timeout's reading (`Timeouts.TimeoutIsNeverAcceptedTwice`), but `Timeouts.ClockGoingBackAcceptsTwice` reaches a
  room where it happens.
* Evicting admission entries goes unnoticed, for any limits, exactly when the connection bucket refills within the time to
  live and the creation bucket does too or never runs out before it, having neither a smaller burst nor a lower rate
  (`Admission.EvictionIsInvisibleExactly`). The default limits meet this.
* An accepted phase timeout logs the expiry before it looks at the phase (`internal/room/state.go:939-966`), so the promise
  that a refused event changes nothing rests on the invariant that a deadline stands in the four timed phases only.

## Model

| member | source | states |
|---|---|---|
| Rules.BuildRoleDeck | internal/room/rules.go:179-190 | the loop yields the configured special roles in deck order, as many as leave a seat, then villagers, one card per player |
| Rules.DeckIsFair | internal/room/rules.go:159-190 | for every legal configuration and two or more players the deck has exactly one killer, at least one villager and every special role at most once |
| Rules.ShuffleRoles | internal/room/state.go:1314-1324 | swapping in place from the top down gives the shuffle of the old array for these draws |
| Rules.ShuffledIsPermutation | internal/room/state.go:1314-1324 | whatever the draws, the shuffled roles are a permutation of the deck |
| Deal.EveryPermutationIsDrawn | internal/room/state.go:1314-1324 | for every rearrangement of the cards there are draws in range that shuffle the cards into it |
| Deal.DifferentDrawsDiffer | internal/room/state.go:1314-1324 | of different cards, different draws in range give different arrangements, so each comes of exactly one |
| Deal.EveryDealIsPossible | internal/room/state.go:532-579 | where a game can start, every arrangement of its deck over the seats is dealt by some draws |
| Deal.AnybodyMayBeTheKiller | internal/room/state.go:532-579 | in particular every seat may be dealt the killer |
| Deal.DeckHolds | internal/room/rules.go:179-190 | a special role is in the deck exactly if it is configured and the configured roles before it, in the order killer, detective, doctor, escort, shooter, leave a place besides a villager |
| Rules.OrderNightActions | internal/room/rules.go:192-213 | from any iteration order, the result lists every action of the map once, in order of priority and then player |
| Rules.NightOrderIsUnique | internal/room/rules.go:192-213 | there is only one such order, so neither map iteration nor the sorting algorithm can be observed |
| Rules.SortedKeys | internal/room/state.go:1360-1367 | the keys in ascending order, from any iteration order |
| Settings.PresetsAreStartable | internal/room/settings.go:50-134 | every named preset is accepted exactly by the rooms large enough, and the standard one gives back the durations it was made from |
| Settings.AcceptanceDependsOnMinimumOnly | internal/room/settings.go:158-214 | settings accepted once stay accepted, with the same durations, under exactly the player limits not below their minimum |
| NightOrder.BlocksComeFirst | internal/room/state.go:973-1000 | when any other action's turn comes every block of the night has been carried out |
| NightOrder.ProtectionsComeFirst | internal/room/state.go:973-1000 | when a kill's turn comes every protection that counts has been carried out |
| NightOrder.NightStep | internal/room/state.go:973-1000 | one turn of the night's loop, in terms of what the actions done so far amount to |
| NightOrder.EverythingDone | internal/room/state.go:973-1020 | what all actions in order amount to is the order-free account of victims and findings |
| Nights.NightInWords | internal/room/state.go:973-1020 | by kinds of action: a living player dies exactly if an unblocked kill is aimed at them and no unblocked protection is; at most one dies; one who investigates learns one thing exactly if unblocked, killed that night or not |
| Outcomes.NightCountsChoices | internal/room/state.go:624-686 | by role: once nobody who acts is missing, or at the deadline, a living player dies exactly if a killer whom no escort held chose them and no doctor whom no escort held did; exactly the detectives no escort held learn whether their choice is a killer; the game ends or the day begins by who then lives; until then the night goes on with the choices made so far |
| Outcomes.NightChoiceIsAcceptedExactly | internal/room/rules.go:83-113 | a night choice is accepted exactly from a living killer, detective, doctor or escort, for a living player, and for oneself only from a doctor |
| Outcomes.VoteCountsBallots | internal/room/state.go:701-725 | once all the living have voted, or at the deadline, the one named by more ballots than anyone else is executed and has the last words, or nobody is; until then the ballots stand as sent |
| Outcomes.ShotCounts | internal/room/state.go:727-765 | a shot kills its target, takes their ballot and turns ballots for them into abstentions; the game ends if the living then decide it, or else the vote if that completes it |
| Outcomes.BallotIsAcceptedExactly | internal/room/state.go:701-765 | a ballot is accepted exactly from the living, for the living or nobody, while voting; a shot exactly by day from a living shooter who has not shot, at another living player |
| Deadlines.NightDeadlineIsPassing | internal/room/state.go:931-945 | an accepted night deadline leaves the lives, findings, phase, round and result that the missing players passing at that moment leave, in any order |
| Deadlines.VoteDeadlineIsAbstaining | internal/room/state.go:931-962 | an accepted voting deadline leaves what the missing voters abstaining at that moment leave, in any order |
| Deadlines.ExpiredVoteExecutes | internal/room/state.go:944-962 | an accepted voting deadline executes a player iff the ballots cast before name them, and more often than anyone else |
| Ballots.TalliesAddUp | internal/room/state.go:1022-1030 | the counts of any set of names add up to the ballots naming one of them |
| Ballots.BallotsAreConserved | internal/room/state.go:1022-1054 | when a vote is resolved the ballots are exactly those of the living, and counts plus abstentions equal their number |
| Ballots.ElectedIsStrictPlurality | internal/room/state.go:1334-1358 | a player is elected iff they have votes and strictly more than every other player |
| Ballots.NobodyElected | internal/room/state.go:1334-1358 | nobody is elected iff nobody leads alone |
| RoomState.CountBallots | internal/room/state.go:1025-1030 | the loop over the ballots gives each named player their number of ballots, and nobody else an entry |
| RoomState.TopVoteTarget | internal/room/state.go:1334-1358 | the scan returns a player untied exactly if they lead the counts strictly |
| RoomState.TopIsElected | internal/room/state.go:1032-1045 | the scan's answer is the strict plurality of the ballots |
| RoomState.State.constructor | internal/room/state.go:110-138 | a new room is waiting, empty, with the standard settings, and is a reachable room |
| RoomState.State.AppendLog | internal/room/state.go:1244-1252 | the history grows by the entry, and the log kept is the last min(100, n) entries of the history |
| RoomState.State.CountSides | internal/room/state.go:1091-1103 | the loop counts the living killers and the living others |
| RoomState.State.CheckWin | internal/room/state.go:1086-1127 | in a game it finishes exactly if the living decide it, naming the right side; otherwise it changes nothing |
| RoomState.State.CarryOut | internal/room/state.go:973-1000 | the loop over the ordered actions kills exactly the order-free victims and records exactly the order-free findings |
| RoomState.State.ResolveNight | internal/room/state.go:973-1020 | refines the order-free resolution of a night |
| RoomState.State.PruneVotes | internal/room/state.go:1218-1233 | deleting while iterating leaves the ballots of the living, with those for the dead turned into abstentions |
| RoomState.State.ResolveVote | internal/room/state.go:1022-1054 | executes exactly the strict plurality, or nobody; the branch for a target not alive is never needed |
| RoomState.State.EnsureConnectedOwner | internal/room/state.go:1154-1164 | a connected owner stays; otherwise the least connected player takes over, if there is one |
| RoomState.State.Deal | internal/room/state.go:553-565 | the roles go to the seats in the order of their ids, everyone alive |
| RoomState.State.ApplyJoin | internal/room/state.go:354-447 | joining and rejoining, with every refusal in the program's order |
| RoomState.State.ApplyLeave | internal/room/state.go:449-482 | leaving gives up the seat while waiting and disconnects it otherwise |
| RoomState.State.ApplyDisconnect | internal/room/state.go:484-502 | disconnecting, with succession of the owner |
| RoomState.State.ApplyStartGame | internal/room/state.go:532-579 | starting a game, with every refusal in the program's order |
| RoomState.State.ApplyChat | internal/room/state.go:581-622 | who may speak, when, and what |
| RoomState.State.ApplyNightAction | internal/room/state.go:624-660 | a night action, resolving the night with the last one awaited |
| RoomState.State.ApplyNightPass | internal/room/state.go:662-686 | a pass, resolving the night with the last one awaited |
| RoomState.State.ApplyStartVote | internal/room/state.go:688-699 | the owner opens the vote |
| RoomState.State.ApplyVote | internal/room/state.go:701-725 | a ballot, resolving the vote with the last one awaited |
| RoomState.State.ApplyShoot | internal/room/state.go:727-765 | a shot, its effect on ballots, the end of the game and the vote it may complete |
| RoomState.State.ApplyTransferOwner | internal/room/state.go:767-781 | ownership goes to a connected seated player only |
| RoomState.State.ApplyKick | internal/room/state.go:783-814 | a kick removes the seat, its ballot, and the ballots' mention of it |
| RoomState.State.ApplySetPlayerLimit | internal/room/state.go:826-846 | the player limit and its four bounds |
| RoomState.State.ApplySetGameSettings | internal/room/state.go:848-868 | custom settings, validated, put in force, readiness cleared |
| RoomState.State.ApplySetGamePreset | internal/room/state.go:870-892 | a preset, validated as for a start, put in force, readiness cleared |
| RoomState.State.ApplyReturnToWaiting | internal/room/state.go:894-929 | disconnected seats are given up, the others reset, the game cleared |
| RoomState.State.ApplyPhaseTimeout | internal/room/state.go:931-971 | an expired phase is closed with passes or abstentions filled in; a refused timeout leaves the log alone |
| RoomState.State.TakeSnapshot | internal/room/state.go:206-282 | from any iteration order, the loops and the two sorts yield the public snapshot: everyone by name and then id, roles only where shown, the kept log, the preset catalogue |
| RoomState.State.ViewFor | internal/room/state.go:284-331 | the branches yield the private view of the participant |
| RoomState.State.Apply | internal/room/state.go:140-204 | one event does to the whole state what the model's step says and leaves a reachable room, so every statement about reachable rooms holds of the program's state; on refusal nothing changes, the kept log included |
| RoomInvariant.VictimFacts | internal/room/state.go:973-1000 | the victims of a night are living players, and there is at most one |
| RoomInvariant.NightResolvedKeepsInv | internal/room/state.go:973-1020 | resolving a night, finished game or not, keeps the invariant |
| RoomInvariant.VoteResolvedKeepsInv | internal/room/state.go:1022-1069 | resolving a vote keeps the invariant |
| RoomInvariant.ShootKeepsInv | internal/room/state.go:751-765 | a shot keeps the invariant, the vote it may complete included |
| RoomInvariant.StartKeepsInv | internal/room/state.go:532-579 | starting a game keeps the invariant: one killer is dealt, and everyone lives |
| RoomSteps.StepKeepsInv | internal/room/state.go:140-204 | every accepted event keeps the invariant |
| RoomRuns.ReachableInv | internal/room/state.go:110-204 | the invariant holds in every room reachable from a new one by any events |
| RoomRuns.RoomsStayWithinLimits | internal/room/state.go:826-892 | always 2 <= minimum <= limit <= 20, seats within their limits, ids disjoint, and the stored settings startable with the durations in force |
| RoomRuns.SidesStayBalanced | internal/room/state.go:1013-1127 | by day and in every night after the first 0 < living killers < living others; in the first night everyone lives; during last words it held with the speaker alive |
| RoomRuns.NobodyWaitsInVain | internal/room/state.go:1190-1216 | a night always waits for a living actor, and a vote for a living voter |
| RoomRuns.BallotsAndActionsAreClean | internal/room/state.go:1218-1233 | ballots are by the living for the living or nobody; night actions stand only at night, each its own living actor's, of the role's kind, at a legal living target, or a pass |
| RoomRuns.PhaseFieldsAgree | internal/room/state.go:1260-1270 | a deadline stands iff the phase is timed, at its start plus its duration; a result iff the game is finished; a speaker iff last words |
| RoomRuns.RecordAccountsForDeaths | internal/room/state.go:1002-1009 | the uncapped record names each dead player once and no living one, each spent shot once, and rounds in order |
| RoomRuns.InvestigationsAreTrue | internal/room/state.go:1072-1084 | only detectives hold findings, and every finding is true of its target's role |
| RoomRuns.StartDealsTheDeck | internal/room/state.go:553-565 | the dealt roles are a permutation of a fair deck over the same seats |
| RoomRuns.StepContinues | internal/room/state.go:1056-1070 | within a game every event keeps roles, revives nobody, only extends the record, and moves (round, phase) forward or not at all, unless it returns the room to waiting |
| RoomRuns.GameIsOneStory | internal/room/state.go:1056-1070 | the same over any run within one game |
| RoomRuns.GamesEndAsCounted | internal/room/state.go:1086-1127 | every step into the end names the villagers iff no killer lives, the killers iff some live and are no fewer than the others |
| Timeouts.TimeoutAdvances | internal/room/state.go:931-971 | every accepted timeout moves the game on |
| Timeouts.FourTimeoutsTurnTheNight | internal/room/state.go:931-971 | any run within a game with at least four accepted timeouts anywhere in it, whatever comes between, reaches a new night or the end of the game |
| Timeouts.PhaseBeginsAtAReading | internal/room/state.go:1260-1270 | over any run the phase then running began before the run or at the reading of one of its events |
| Timeouts.TimeoutIsAcceptedExactly | internal/room/state.go:931-937 | a timeout is accepted iff a game is running and its phase began at least a phase duration before the reading |
| Timeouts.TimeoutIsAcceptedAgainExactly | internal/room/state.go:931-937 | after any run following its acceptance, the same timeout is accepted again iff the phase then running was begun by an event of that run at least a phase duration before its reading |
| Timeouts.TimeoutIsNeverAcceptedTwice | internal/room/state.go:931-937 | so it is refused after every run whose readings are not before its own |
| Timeouts.ClockGoingBackAcceptsTwice | internal/room/state.go:931-937 | in a reachable room, one owner event with an earlier reading makes the same timeout accepted twice |
| Seats.PlayKeepsSeats | internal/room/state.go:624-765 | play changes nothing of the seats, the owner and the rules but who lives and which shot is spent |
| Seats.PlayKeepsEveryone | internal/room/state.go:624-765 | seat by seat: everything but life stays, and a shot is spent exactly by the one who shoots |
| Ownership.OwnerIsLostOnlyByAbandoning | internal/room/state.go:894-918 | an accepted event leaves a proper owner iff it is not a return to waiting with nobody seated connected |
| Ownership.RunKeepsOwner | internal/room/state.go:1146-1164 | so does every run without one |
| Ownership.OwnerIsFoundExactly | internal/room/state.go:354-447 | with an owner on record who is not seated, an accepted event gives the room an owner iff a seated player joins again, somebody joins as a player under that id, the owner's id names an owner, or it returns a game to waiting with somebody connected; after any other the same id is still on record and not seated |
| Ownership.OwnerIsLostOverRuns | internal/room/state.go:894-918 | over any run the owner is lost iff somebody abandoned the room and no event since has given it one |
| Ownership.OwnerCanBeLost | internal/room/state.go:894-918 | a reachable room whose one player does not own it while the owner's id is of someone gone |
| Cursors.StepMovesCursor | internal/room/state.go:1276-1294 | a seat's cursor moves exactly with an accepted numbered event of that seat, to its number, upwards |
| Cursors.AppliedInOrder | internal/room/state.go:145-149 | while a seat lasts, the numbers it has applied strictly increase over any run, and the cursor is the last |
| Cursors.DuplicatesAreDecided | internal/room/state.go:145-149 | a duplicate is reported exactly for a number at or below the seat's cursor, and changes nothing |
| Cursors.RoomDecidesLikeServer | internal/ws/handler.go:247-264 | the room's answer and cursor are those of the server in the delivery protocol |
| Acceptance.AcceptedExactly | internal/room/state.go:140-204 | an event is accepted exactly if its number is new to the seat and its line in one table of conditions holds: who may join with which token, who may speak when, when a game may start, what settings are sound, when a phase has run out |
| Laws.EventsObeyLaws | internal/room/state.go:354-929 | after every accepted event each seat, player or spectator, exists exactly if the law of coming and going says so, with name, token, readiness, connection, shot, presence and time of joining as their laws say; the owner is the one named, the successor or the one before, and the rules in force change only by the event that sets them |
| Phases.PhasesFollow | internal/room/state.go:1254-1270 | an event either leaves phase, clock and round as they are or begins a phase at its own time, a night after a day being a new round, and the last entry of the record says which |
| Phases.GamesStartAfresh | internal/room/state.go:532-579 | a start, like a return to waiting, leaves nothing of the game before |
| Chronicle.EventsAreRecorded | internal/room/state.go:931-1070 | every event adds to the record exactly the expiry or the shot, the verdict of the night or the vote it ends, naming who died of it, and the phase that begins |
| Provenance.BallotsAreTheLastSent | internal/room/state.go:701-725 | over any run in which a vote stays open, a living player's ballot is the last one they sent, an abstention if its target has died, and nobody else has one |
| Provenance.ChoicesAreTheLastSent | internal/room/state.go:624-686 | over any run in which a night goes on, everybody's choice is the last one they sent |
| Provenance.TokensAreThoseDrawn | internal/room/state.go:354-447 | over any run, whoever is seated holds the token drawn when they last came as somebody new |
| Provenance.OnlyItsTokenOpensASeat | internal/room/state.go:366-395 | so after any run a held seat is joined again only with that token |
| Views.OffersAreExact | internal/room/state.go:314-328 | in every reachable room an action is offered to a player iff some event of that kind from them would be accepted |
| Views.TheNightSaysWhoItWaitsFor | internal/room/state.go:314-317 | at night somebody is told they are waited for, and exactly those who are |
| Listing.ListingIsUnique | internal/room/state.go:231-236 | there is one order by name and then id, so neither map iteration nor the sorting algorithm shows |
| Listing.ListByName | internal/room/state.go:231-236 | from any iteration order, that order |
| Views.EveryoneIsListed | internal/room/state.go:206-236 | the snapshot lists every seated player exactly once, as they are shown, by name and then id, and nobody else |
| Views.RolesAreListedExactly | internal/room/state.go:218-229 | a listed role is there exactly if the game is finished, or roles are revealed on death, the game has begun and the player is dead; then it is theirs |
| Views.SnapshotShowsExactly | internal/room/state.go:206-282 | two rooms have the same snapshot exactly if they agree in all that is public: these roles, seats by name, readiness, connection and life, settings, clock, result and kept log |
| Views.SnapshotKeepsSecrets | internal/room/state.go:206-282 | the snapshot, its order included, does not depend on the roles of the living in a running game, of the dead unless they are revealed, or of anybody while waiting, nor on tokens, ballots, night actions or findings |
| Views.PrivateViewIsOnesOwn | internal/room/state.go:284-331 | a private view depends on nobody else's seat, ballot, action or findings |
| Views.PrivateViewTells | internal/room/state.go:284-331 | in a game the private view has the player's own role, life, ballot, findings and token, and says truly whether they may vote or shoot |
| Secrets.StepAlike | internal/room/state.go:140-204 | rooms one participant cannot tell apart stay so over any two accepted events, its own the same, others' told apart by nobody else (night choices and ballots even from different senders), if the outcomes give away the same: phase, living, result, roles shown, own role and findings |
| Secrets.SecretsStaySecret | internal/room/state.go:206-331 | so over any two runs: the participant's copies of everything posted are the same, message by message |
| Secrets.RefusedLeaveNoTrace | internal/room/state.go:140-204 | a run posts what its accepted events alone would, and ends in the same room |
| Secrets.NobodyIsTold | internal/room/actor.go:316-325 | so a participant subscribed in either of two reachable rooms it cannot tell apart is sent the same stream, and is shown the same at the end, whatever else was refused in either |
| Streams.OpenChannelsMissNothing | internal/room/actor.go:316-325 | an open channel has been sent a copy of everything posted since it was opened, in order, without gaps, and no ending |
| Streams.ClosedChannelsEndOnce | internal/room/actor.go:282-299 | a closed channel was sent an unbroken stretch of the same, then exactly one terminal error if it was ended for a reason and none if it was dropped or given up |
| Streams.AllServedTwice | internal/room/actor.go:316-338 | serving some postings and then more is serving them all: a subscriber stays iff its queue has room for all of them, and gets those that fit, in order |
| Streams.DropsDisconnectExactly | internal/room/actor.go:327-338 | however nested, the disconnections of a broadcast change nothing of the room but that exactly those participants are no longer connected, and who owns it |
| Streams.EveryDropIsPosted | internal/room/actor.go:327-338 | every disconnection of a seated participant is posted, in order, with the room right after it, so the last posting shows the room as it is left |
| Actor.Actor.constructor | internal/room/actor.go:128-129 | a new actor has a new room and no subscribers |
| Actor.Actor.DisconnectParticipant | internal/room/actor.go:282-299 | the participant's subscription ends with exactly the reason, what was unread is gone, and no other channel is touched |
| Actor.Actor.Deliver | internal/room/actor.go:316-326 | a subscriber gets the envelope and stays iff its queue has room; exactly the others are dropped, their channels closed with nothing more sent, and returned, each once |
| Actor.Actor.Broadcast | internal/room/actor.go:316-338 | it ends; the envelope and then the news of every disconnection are posted in order, the room is as those leave it, a subscriber stays iff its queue has room for all of that and gets what fits, and exactly those with no room are disconnected, each once |
| Actor.Actor.DispatchFrom | internal/room/actor.go:229-247 | an event from a replaced or dropped subscription changes nothing, nor does a refused one; an accepted one does to the room what one event does and is broadcast, after a kicked participant has been told so as the last thing on a closed channel |
| Actor.Actor.Subscribe | internal/room/actor.go:248-257 | the participant's older subscription is closed, told it is replaced and nothing after, and the new one starts from the room as it is |
| Actor.Actor.Unsubscribe | internal/room/actor.go:258-274 | an old subscription gives up nothing; a standing one is closed without a word, its participant leaves or is disconnected, and that is broadcast if accepted |
| Actor.Actor.PhaseTimer | internal/room/actor.go:216-228 | a fired timer is one timeout event, broadcast if accepted, and nothing at all if not |
| Attendance.AwayExactly | internal/room/state.go:354-478 | after any accepted event, one who is seated is shown as not connected iff it was their departure, or they were before and it was not their joining; only joining gives a seat |
| Attendance.CommandFollows | internal/room/actor.go:205-280 | the same for one command of the actor's loop, being dropped by its broadcast counting as departure |
| Attendance.AttendanceIsLostExactly | internal/room/actor.go:205-280 | if everyone subscribed and seated is connected, they all still are after a command unless one who is away subscribes, or a departure is dispatched for one who keeps seat and subscription |
| Attendance.AwayOverRuns | internal/room/actor.go:205-280 | over any run of commands, one who is seated is shown as not connected iff they have departed or been dropped and not joined since |
| Attendance.Take | internal/room/actor.go:205-280 | the actor's methods make of channels and room what the command's account says |
| Attendance.Serve | internal/room/actor.go:128-280 | so for any sequence of commands on a new actor |
| Subscriptions.SubscriptionFollows | internal/room/actor.go:205-338 | after one command a subscription is a participant's exactly if they enter by it, or it was and they are not replaced, kicked or giving it up, and its queue has room for the posting and one more for each seated participant who falls behind |
| Subscriptions.SubscribedOverRuns | internal/room/actor.go:205-338 | over any run of commands a subscription stands exactly if its participant entered by it and none of that has happened since |
| Subscriptions.OnlyStandingConnectionsAct | internal/room/actor.go:229-236 | what a connection sends changes something only if its sender entered by that connection and nothing has ended it since |
| Subscriptions.EndingsAreTrue | internal/room/actor.go:282-299 | who is replaced is told so as the last word, and who is kicked; nobody else is told of an ending |
| Freshness.NobodySeesAStaleRoom | internal/room/actor.go:248-338 | over any run of commands, the last state sent to each subscriber, public and private, shows the room as it is; only the time of last change may lag behind a chat |
| Freshness.ChatIsHeardExactly | internal/room/actor.go:316-326 | an accepted chat is the next thing said to every remaining subscriber, under its sender's name, and nothing else is said as a chat |
| Takeover.TakeOver | internal/ws/handler.go:152-163 | if a newer connection joins, the older one unsubscribes and the newer one subscribes, one right after the other, the participant ends up subscribed and shown as not connected, whatever the room and whoever else is subscribed or dropped |
| Takeover.ConnectedOwnerIsLost | internal/room/state.go:894-918 | with nobody else connected, such an owner returning the game to waiting leaves no player and its own id as owner |
| Takeover.SubscribedAndAway | internal/ws/handler.go:152-163 | a new actor brought there by commands: somebody subscribed, seated and shown as not connected |
| Takeover.OwnerIsLost | internal/room/state.go:894-918 | a new actor brought by commands to a room without players and with the connected owner's id |
| TokenBucket.Limiter.Allow | internal/ws/rate_limit.go:78-92 | refines the bucket's step and keeps 0 <= tokens <= capacity for any clock reading |
| TokenBucket.TokensStayInRange | internal/ws/rate_limit.go:78-92 | so over any run of readings, backward ones included |
| TokenBucket.WindowIsBounded | internal/ws/rate_limit.go:78-92 | in any window of clock readings at most capacity plus rate times length are allowed, whatever came before |
| TokenBucket.WindowsAreBounded | internal/ws/rate_limit.go:68-92 | the same for any stretch of a new limiter's life |
| TokenBucket.AllowedExactlyWithinBounds | internal/ws/rate_limit.go:68-92 | over a limiter's whole life, at any readings, a call is allowed exactly if no window ending with it gets more than the burst and what the window's length earns: the bound is never broken and nothing is refused that would keep it |
| TokenBucket.BurstIsGranted | internal/ws/rate_limit.go:78-92 | calls at one instant are allowed exactly as long as whole tokens last, so the bound is met |
| TokenBucket.PatienceIsRewarded | internal/ws/rate_limit.go:78-92 | one event's worth of time after the last refill the next call is allowed |
| TokenBucket.KindsDoNotInterfere | internal/ws/rate_limit.go:106-111 | in any interleaving chat events get the verdicts they would get alone, and so do game events |
| TokenBucket.ConnectionRateLimiter.Allow | internal/ws/rate_limit.go:106-111 | a call touches the bucket of its kind only |
| Admission.AdmissionLimiter.RemoveExpired | internal/ws/admission.go:125-131 | deleting while iterating leaves exactly the entries in use or seen recently |
| Admission.AdmissionLimiter.TryAcquire | internal/ws/admission.go:79-110 | refines the table's step, verdicts in the program's order, and keeps counts equal to leases |
| Admission.AcquireIsAnsweredExactly | internal/ws/admission.go:79-110 | after any run, evicting or not, an acquire is answered by the limit per address exactly if the connection bucket has a token and the address holds as many leases as the limit; it is granted exactly if that bucket has one, the leases are fewer, and the creation bucket has one if a room is created |
| Admission.CallsAreRemembered | internal/ws/admission.go:79-123 | in a table that never evicts, an address has an entry exactly once it has called, with the leases granted and not released, and buckets as its calls have left them |
| Admission.GrantedByHistory | internal/ws/admission.go:79-110 | so there the verdict is a function of the calls and releases of that address alone |
| Admission.AdmissionLimiter.GiveBack | internal/ws/admission.go:112-123 | releasing an outstanding lease takes one off its address's count |
| Admission.CountsAreLeases | internal/ws/admission.go:96-123 | over any run an entry's count is its outstanding leases, at most the limit, and a release always finds an entry with a positive count |
| Admission.EvictionIsInvisible | internal/ws/admission.go:79-131 | with times not going back and both buckets refilling within the time to live, every sequence gets the verdicts of a table that never evicts |
| Admission.RoomsAreNeverRefused | internal/ws/admission.go:97-99 | where the creation bucket has neither a smaller burst nor a lower rate, every sequence gets the verdicts it would get if no call created a room |
| Admission.WelcomeIsPaidFor | internal/ws/admission.go:79-110 | in a table that never evicts, a series of granted calls has taken its tokens out of what there was and what the time has earned |
| Admission.EvictionIsInvisibleExactly | internal/ws/admission.go:79-131 | for any limits, no sequence of calls can tell iff the connection bucket refills within the time to live and the creation bucket does too or has neither a smaller burst nor a lower rate |
| Admission.DefaultLimitsRecover | internal/ws/admission.go:14-21 | the default limits meet it |
| Browser.RestorePendingEvents | internal/webui/static/app.js:1599-1613 | the loop, the sort and the cut yield the last entry of each number, in order, the newest fifty |
| Browser.RestoredIsOrdered | internal/webui/static/app.js:1599-1613 | whatever is in storage, the restored queue is strictly ascending, of safe numbers, at most fifty |
| Browser.RestoreUndoesSave | internal/webui/static/app.js:1579-1613 | restoring a saved queue gives it back |
| Browser.ReloadChangesNothing | internal/webui/static/app.js:316-324 | a reload brings back queue and counter exactly |
| Browser.App.SendEvent | internal/webui/static/app.js:584-611 | an event is queued under the next number, saved and sent, or refused with nothing changed |
| Browser.App.HandleEventAck | internal/webui/static/app.js:613-620 | an ack removes exactly the entries of its number, and the session is saved |
| Browser.App.ReplayPendingEvents | internal/webui/static/app.js:622-629 | any queue is sent again sorted by number, entries of one number in their order; a well-formed one as it stands |
| Browser.App.JoinRoom | internal/webui/static/app.js:316-324 | joining restores the queue and puts the counter above it |
| Delivery.MoveKeepsOk | internal/ws/handler.go:195-266 | every move of page, network or server, answers on replaced connections included, keeps the protocol's invariant |
| Delivery.AppliedInOrderAtMostOnce | internal/room/state.go:145-149 | under any losses, breaks, replacements and reloads the page's events are applied in order, each at most once, and as given out but for the words moderation puts into a chat message |
| Delivery.NothingIsForgotten | internal/webui/static/app.js:584-629 | every number given out is pending or answered; the queue is strictly ascending, below the next number and at most fifty; the stored session is the live one |
| Delivery.LeavesOnAckOnly | internal/webui/static/app.js:613-620 | an event leaves the queue only on an ack with its number |
| Delivery.AnswersAreTrue | internal/ws/handler.go:247-264 | every ack on its way was given; "applied" is said of exactly the events applied; the first answer about an event is never "duplicate" |
| Delivery.RejectedIsUntrueExactly | internal/ws/handler.go:220-264 | in every run, "rejected" is said of an applied event iff the limiter or the filter turns it away before the room is asked |
| Delivery.RejectedMayBeApplied | internal/ws/handler.go:220-226 | which happens in a run |
| Delivery.DuplicateIsUntrueExactly | internal/ws/handler.go:247-255 | in every run, an event called "duplicate" was never applied iff a later number was applied while everything said of this one was "rejected" |
| Delivery.FirstDuplicateIsUntrueExactly | internal/ws/handler.go:247-255 | of the first "duplicate" about an event, iff every answer about it before was "rejected" |
| Delivery.DuplicateMayNeverBeApplied | internal/ws/handler.go:247-255 | both happen in a run: an untrue first "duplicate", and an untrue later one after another "duplicate" |
| Progress.OneQuietConnectionSettlesAll | internal/webui/static/app.js:584-629 | however things stand, one connection on which the room accepts everything leaves pending only what cannot be decoded; what was pending above the cursor is applied, in order, and the rest answered as duplicate |
| Progress.EverythingCanBeSettled | internal/webui/static/app.js:584-629 | so after any moves, if all can be decoded, it empties the queue, and every number given out has been answered |

## Left out

- Rule sets other than the default one: `NewRuleSet` accepts registries without a killer in the deck, for which the balance of sides does not hold.
- Trimming, alphabets and lengths of ids, names and messages: an id, a name and a message are modelled as already normalised, an empty one standing for one that is empty after trimming; a message's length is its number of bytes.
- A participant map holds values, not references to mutable players: aliasing of a `*Player` is not modelled (the program never shares one between two keys).
- Duration texts: a text is what it parses to, and writing a duration out and parsing it back is taken to give the same duration.
- RoomState.State.TakeSnapshot: the room id and the server's clock are not part of the snapshot; names compare by their characters.
- Events without a time of their own (`internal/room/state.go:141-143`): every event carries its time.
- RoomState.State.ApplyStartGame: the random source yields one draw per seat, reduced into range, or too few when it fails; the distribution of the draws is not modelled.
- Goroutines, the inbox, contexts, the idle timer and the setting of the phase timer: the actor is one sequential command loop, and a reader takes messages between commands.
- Actor.Actor.Subscribe: that a random subscription id has not been used before is a precondition.
- Clock readings taken inside a broadcast are arbitrary; only the time of last update depends on them.
- Float rounding in the buckets: numbers are exact.
- Address and proxy parsing in `internal/ws/admission.go`.
- Delivery.MoveKeepsOk: storage writes succeed, one page uses a seat, `send` does not throw on an open socket, and numbers stay below the browser's greatest safe integer; leaving, being kicked or losing the seat ends the run.
- A page reloaded before it was told its token comes back as a newcomer on another seat; that second seat is another run.
- Delivery.AppliedInOrderAtMostOnce: what moderation puts in place of a chat message is any text; the rules of `internal/ws/moderation.go` are not part of this model.
- Acceptance.AcceptedExactly: which of several reasons a refusal gives is stated by the methods of `RoomState.State` only.
- Chronicle.EventsAreRecorded: speaks of the whole record; what is shown of it are its last 100 entries (`RoomState.State.AppendLog`).
- Progress.OneQuietConnectionSettlesAll: supposes that nothing is turned away by the limiter or the filter and that the room accepts what it is asked.
- Secrets.SecretsStaySecret: timing between messages is not part of what a participant is sent beyond the times the messages carry.
- WebSocket upgrade, pumps, pings, close codes, JSON, decoding of events, origins and the hub.
