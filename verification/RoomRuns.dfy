// Whole runs of a room: what every reachable state and every step of a game promises.

module RoomRuns {
  import opened Rules
  import opened Settings
  import opened RoomModel
  import opened RoomInvariant
  import opened RoomSteps

  datatype Input = Input(event: Event, entropy: Entropy)

  ghost function After(r: Room, input: Input): Room {
    match Step(r, input.event, input.entropy)
    case Rejected(_) => r
    case Accepted(s, _) => s
  }

  ghost function Run(r: Room, inputs: seq<Input>): Room {
    if inputs == [] then r else After(Run(r, inputs[..|inputs| - 1]), inputs[|inputs| - 1])
  }

  lemma RunStep(r: Room, inputs: seq<Input>, i: nat)
    requires i < |inputs|
    ensures Run(r, inputs[..i + 1]) == After(Run(r, inputs[..i]), inputs[i])
  {
    assert inputs[..i + 1][..i] == inputs[..i];
  }

  ghost predicate ReachableBy(r: Room, durations: PhaseDurations, maxSpectators: int, now: int, inputs: seq<Input>) {
    durations.Valid() && maxSpectators > 0 && r == Run(NewRoom(durations, maxSpectators, now), inputs)
  }

  ghost predicate Reachable(r: Room) {
    exists durations, maxSpectators, now, inputs :: ReachableBy(r, durations, maxSpectators, now, inputs)
  }

  lemma AfterKeepsInv(r: Room, input: Input)
    requires Inv(r)
    ensures Inv(After(r, input))
  {
    hide Inv, Step;
    if Step(r, input.event, input.entropy).Accepted? {
      StepKeepsInv(r, input.event, input.entropy);
    }
  }

  lemma {:induction false} RunKeepsInv(r: Room, inputs: seq<Input>)
    requires Inv(r)
    ensures Inv(Run(r, inputs))
  {
    hide Inv, After;
    if inputs == [] {
    } else {
      RunKeepsInv(r, inputs[..|inputs| - 1]);
      AfterKeepsInv(Run(r, inputs[..|inputs| - 1]), inputs[|inputs| - 1]);
    }
  }

  // Whatever events arrive in whatever order, at whatever times, the invariant holds.
  lemma ReachableInv(r: Room)
    requires Reachable(r)
    ensures Inv(r)
  {
    var durations, maxSpectators, now, inputs :| ReachableBy(r, durations, maxSpectators, now, inputs);
    NewRoomInv(durations, maxSpectators, now);
    hide Inv;
    RunKeepsInv(NewRoom(durations, maxSpectators, now), inputs);
  }

  lemma NewRoomReachable(durations: PhaseDurations, maxSpectators: int, now: int)
    requires durations.Valid() && maxSpectators > 0
    ensures Reachable(NewRoom(durations, maxSpectators, now))
  {
    assert ReachableBy(NewRoom(durations, maxSpectators, now), durations, maxSpectators, now, []);
  }

  lemma StepReaches(r: Room, e: Event, entropy: Entropy)
    requires Reachable(r) && Step(r, e, entropy).Accepted?
    ensures Reachable(Step(r, e, entropy).room)
  {
    var durations, maxSpectators, now, inputs :| ReachableBy(r, durations, maxSpectators, now, inputs);
    hide Step, NewRoom;
    var longer := inputs + [Input(e, entropy)];
    assert longer[..|longer| - 1] == inputs;
    assert ReachableBy(Step(r, e, entropy).room, durations, maxSpectators, now, longer);
  }

  // ---- What the invariant says, phase by phase ------------------------------------------------

  // Seats stay within their limits, and the stored settings can always start a game with the
  // durations in force.
  lemma RoomsStayWithinLimits(r: Room)
    requires Reachable(r)
    ensures 2 <= r.settings.minimumPlayers <= r.maxPlayers <= 20
    ensures |r.players| <= r.maxPlayers && |r.spectators| <= r.maxSpectators && r.players.Keys !! r.spectators.Keys
    ensures ValidateForStart(r.settings, r.maxPlayers, r.base) == Ok(r.durations)
  {
    ReachableInv(r);
    SettingsFacts(r);
  }

  // In both day phases and every night after the first the killers are alive and outnumbered. In
  // the first night everyone lives. During last words it was so with the speaker alive.
  lemma SidesStayBalanced(r: Room)
    requires Reachable(r) && IsActive(r.phase)
    ensures IsDay(r.phase) || (r.phase == Night && r.round > 1) ==> 0 < |LivingKillers(r.players)| < |LivingOthers(r.players)|
    ensures r.phase == Night && r.round == 1 ==> Living(r.players) == r.players.Keys
    ensures r.phase == LastWords ==> (
      && r.lastWords in r.players && !r.players[r.lastWords].alive
      && Balanced(r.players[r.lastWords := r.players[r.lastWords].(alive := true)]))
  {
    ReachableInv(r);
    hide GameCore, ClockOk, SettingsOk, CapacityOk, ActionsOk, AllNightActionsSubmitted, AllLivingVoted;
    assert Balanced(r.players) <==> 0 < |LivingKillers(r.players)| < |LivingOthers(r.players)|;
    hide Balanced;
    if r.phase == Night && r.round == 1 {
      assert forall p :: p in r.players ==> p in Living(r.players);
    }
  }

  // A night always waits for a living actor, and a vote for a living voter.
  lemma NobodyWaitsInVain(r: Room)
    requires Reachable(r)
    ensures r.phase == Night ==> exists p :: HasNightAction(r.players, p) && p !in r.nightActions
    ensures r.phase == DayVoting ==> exists p :: IsLiving(r.players, p) && p !in r.votes
  {
    ReachableInv(r);
    hide GameCore, ClockOk, SettingsOk, CapacityOk, ActionsOk, Balanced;
    if r.phase == DayVoting {
      assert !AllLivingVoted(r.players, r.votes);
      var p :| p in Living(r.players) && p !in r.votes.Keys;
      assert IsLiving(r.players, p);
    } else if r.phase == Night {
      assert !AllNightActionsSubmitted(r.players, r.nightActions);
    }
  }

  // Ballots are cast by living seats for living seats or nobody, and only stand in and after a
  // vote; actions stand only at night, each its own actor's, allowed by the role, at a living seat.
  lemma BallotsAndActionsAreClean(r: Room)
    requires Reachable(r)
    ensures forall v :: v in r.votes ==> IsLiving(r.players, v) && (r.votes[v] == NO_ID || IsLiving(r.players, r.votes[v]))
    ensures r.phase != DayVoting && r.phase != Finished ==> r.votes == map[]
    ensures r.phase != Night ==> r.nightActions == map[]
    ensures forall p :: p in r.nightActions ==> ActionOk(r.players, p, r.nightActions[p])
  {
    hide GameCore, ClockOk, SettingsOk, CapacityOk, ActionOk, Balanced, AllNightActionsSubmitted, AllLivingVoted, CastOk, RecordOk;
    ReachableInv(r);
    if IsActive(r.phase) {
      CoreParts(r);
    }
  }

  // A deadline, a result and a speaker exist exactly when the phase calls for them.
  lemma PhaseFieldsAgree(r: Room)
    requires Reachable(r)
    ensures r.deadline.Some? <==> IsActive(r.phase)
    ensures r.deadline.Some? ==> r.deadline.value == r.startedAt + r.durations.For(r.phase) && r.deadline.value > r.startedAt
    ensures r.result.Some? <==> r.phase == Finished
    ensures r.lastWords != NO_ID <==> r.phase == LastWords
  {
    ReachableInv(r);
    SettingsFacts(r);
    hide GameCore, SettingsOk, CapacityOk, PhaseOk;
  }

  // From the start of a game until its seats are given up, the record names each dead seat exactly
  // once, no living one, each spent shot exactly once, and rounds in order.
  lemma RecordAccountsForDeaths(r: Room)
    requires Reachable(r) && r.phase != Waiting
    ensures Distinct(Deaths(r.record)) && Distinct(Shots(r.record))
    ensures forall p :: p in r.players ==> (!r.players[p].alive <==> p in Deaths(r.record))
    ensures forall p :: p in r.players ==> (r.players[p].shooterUsed <==> p in Shots(r.record))
    ensures forall i, j :: 0 <= i < j < |r.record| ==> r.record[i].round <= r.record[j].round
    ensures IsActive(r.phase) ==> forall p :: p in Deaths(r.record) || p in Shots(r.record) ==> p in r.players
  {
    ReachableInv(r);
    if IsActive(r.phase) {
      CoreParts(r);
    }
    hide ClockOk, SettingsOk, CapacityOk, PhaseOk, CastOk, BallotsOk, FindingsOk, HasKiller, Deaths, Shots;
  }

  // What detectives have been told is true, and only detectives have been told anything.
  lemma InvestigationsAreTrue(r: Room, d: Id, i: nat)
    requires Reachable(r) && IsActive(r.phase) && d in r.investigations && i < |r.investigations[d]|
    ensures d in r.players && r.players[d].role == Detective
    ensures var f := r.investigations[d][i];
      f.target in r.players && f.killer == IsKillerAligned(r.players[f.target].role) && 1 <= f.round <= r.round
  {
    ReachableInv(r);
    hide ClockOk, SettingsOk, CapacityOk, PhaseOk, CastOk, BallotsOk, HasKiller, RecordOk, RecordSeated;
    assert FindingOk(r.players, r.investigations[d][i], r.round);
  }

  // ---- The deal -------------------------------------------------------------------------------

  // The roles on the seats, in the order of the seats' ids.
  ghost function RolesInOrder(players: Players): seq<Role> {
    var ids := Sorted(players.Keys);
    seq(|ids|, i requires 0 <= i < |ids| => assert ids[i] in ids; players[ids[i]].role)
  }

  lemma DealtInOrder(players: Players, roles: seq<Role>)
    requires |roles| == |players|
    ensures RolesInOrder(Dealt(players, roles)) == roles
  {
    DealtRoles(players, roles);
    hide Dealt, Sorted;
  }

  // dealt seats the players with a permutation of their deck: one killer, at least one villager,
  // each special role at most once, everyone alive.
  ghost predicate IsFairDeal(players: Players, configuration: RoleConfiguration, dealt: Players) {
    var roles := multiset(RolesInOrder(dealt));
    && dealt.Keys == players.Keys
    && roles == multiset(RoleDeck(|players|, configuration))
    && roles[Killer] == 1 && roles[Villager] >= 1
    && (forall role :: role != Villager ==> roles[role] <= 1)
    && (forall p :: p in dealt ==> dealt[p].alive)
  }

  lemma DealtFairly(players: Players, configuration: RoleConfiguration, draws: seq<nat>)
    requires 2 <= |players| <= |draws| && LegalRoleConfiguration(configuration)
    ensures IsFairDeal(players, configuration, Dealt(players, ShuffledDeck(|players|, configuration, draws)))
  {
    var roles := ShuffledDeck(|players|, configuration, draws);
    hide RoleDeck, ShuffledDeck, Dealt, RolesInOrder;
    DeckIsFair(|players|, configuration);
    DealtInOrder(players, roles);
    DealtAlive(players, roles);
  }

  // A game starts with a fair deal to everyone seated.
  lemma StartDealsTheDeck(r: Room, p: Id, at: int, entropy: Entropy)
    requires Reachable(r) && AfterStartGame(r, p, at, entropy).Accepted?
    ensures |r.players| >= 2 && IsFairDeal(r.players, r.settings.roles, AfterStartGame(r, p, at, entropy).room.players)
  {
    ReachableInv(r);
    SettingsFacts(r);
    hide Inv, StartRefusal, ValidateForStart, RoleDeck, ShuffledDeck, Dealt, IsFairDeal, LegalRoleConfiguration;
    DealtFairly(r.players, r.settings.roles, entropy.draws);
  }

  // ---- A game as it goes on -------------------------------------------------------------------

  function Rank(phase: Phase): int {
    match phase
    case Waiting => -1
    case Night => 0
    case DayDiscussion => 1
    case DayVoting => 2
    case LastWords => 3
    case Finished => 4
  }

  predicate Later(r: Room, s: Room) {
    s.round > r.round || (s.round == r.round && Rank(s.phase) > Rank(r.phase))
  }

  predicate DeadStayDead(a: Players, b: Players) {
    forall p :: p in a && p in b && !a[p].alive ==> !b[p].alive
  }

  // The result names the side that the living decide for.
  predicate EndsAsCounted(s: Room) {
    s.phase == Finished ==>
      && IsDecided(s.players) && s.result.Some?
      && (s.result.value.winner == VillagersWin <==> |LivingKillers(s.players)| == 0)
      && (s.result.value.winner == KillersWin <==> 0 < |LivingKillers(s.players)| && |LivingKillers(s.players)| >= |LivingOthers(s.players)|)
  }

  // s carries on the game of r: the same seats in the same roles, nobody revived, the record only
  // longer, and either the same phase of the same round or a later one.
  predicate Continues(r: Room, s: Room) {
    && SameRoles(r.players, s.players)
    && DeadStayDead(r.players, s.players)
    && r.record <= s.record
    && ((s.phase == r.phase && s.round == r.round) || Later(r, s))
    && s.phase != Waiting
    && (s.phase == Finished && r.phase != Finished ==> EndsAsCounted(s))
  }

  lemma FinishContinues(r: Room, at: int)
    requires IsDecided(r.players) && IsActive(r.phase)
    ensures Continues(r, FinishGame(r, at)) && Later(r, FinishGame(r, at))
  {
    assert LivingKillers(r.players) == {} <==> |LivingKillers(r.players)| == 0;
  }

  lemma ContinuesOn(r: Room, s: Room, t: Room)
    requires Continues(r, s) && Continues(s, t) && s.phase != Finished
    ensures Continues(r, t)
    ensures Later(r, s) || Later(s, t) ==> Later(r, t)
  {
    hide EndsAsCounted;
  }

  lemma AfterDayContinues(r: Room, at: int)
    requires r.phase == DayVoting || r.phase == LastWords
    ensures Continues(r, AfterDay(r, at)) && Later(r, AfterDay(r, at))
  {
    hide IsDecided;
    if IsDecided(r.players) {
      FinishContinues(r, at);
    }
  }

  lemma MorningContinues(r: Room, at: int)
    requires r.phase == Night
    ensures Continues(r, Morning(r, at)) && Morning(r, at).phase == Night
  {
    hide Victims, Investigated, PrunedVotes, EliminationLog;
  }

  lemma NightResolvedContinues(r: Room, at: int)
    requires r.phase == Night
    ensures Continues(r, NightResolved(r, at)) && Later(r, NightResolved(r, at))
  {
    var morning := Morning(r, at);
    MorningContinues(r, at);
    hide Victims, Investigated, PrunedVotes, EliminationLog, IsDecided, Slain;
    if IsDecided(morning.players) {
      FinishContinues(morning, at);
    } else {
      assert Continues(morning, NightResolved(r, at));
    }
    hide Continues, Later;
    ContinuesOn(r, morning, NightResolved(r, at));
  }

  lemma VoteResolvedContinues(r: Room, at: int)
    requires r.phase == DayVoting && AllLivingVoted(r.players, r.votes)
    ensures Continues(r, VoteResolved(r, at)) && Later(r, VoteResolved(r, at))
  {
    var elected := Elected(PrunedVotes(r.votes, r.players));
    hide Elected, PrunedVotes, AllLivingVoted, IsDecided;
    if elected == NO_ID {
      var quiet := Logged(r.(votes := map[]), VoteNoExecution, at);
      assert Continues(r, quiet);
      hide AfterDay;
      AfterDayContinues(quiet, at);
      hide Continues;
      ContinuesOn(r, quiet, AfterDay(quiet, at));
    }
  }

  lemma VoteMaybeResolvedContinues(r: Room, at: int)
    requires r.phase == DayVoting
    ensures Continues(r, VoteMaybeResolved(r, at))
  {
    hide VoteResolved, AllLivingVoted;
    if AllLivingVoted(r.players, r.votes) && Living(r.players) != {} {
      VoteResolvedContinues(r, at);
    }
  }

  lemma ShotContinues(r: Room, p: Id, target: Id, at: int)
    requires IsDay(r.phase) && p in r.players
    ensures Continues(r, ShotResolved(r, p, target, at))
  {
    var fired := ShotFired(r, p, target, at);
    assert Continues(r, fired) && fired.phase == r.phase;
    hide ShotFired, VoteMaybeResolved, IsDecided, FinishGame;
    if IsDecided(fired.players) {
      FinishContinues(fired, at);
    } else if r.phase == DayVoting {
      VoteMaybeResolvedContinues(fired, at);
    }
    assert Continues(fired, ShotResolved(r, p, target, at));
    hide Continues, ShotResolved;
    ContinuesOn(r, fired, ShotResolved(r, p, target, at));
  }

  lemma NightTimeoutContinues(r: Room, at: int)
    requires r.phase == Night
    ensures Continues(r, TimedOut(r, at)) && Later(r, TimedOut(r, at))
  {
    var passed := Logged(r, PhaseTimedOut(r.phase), at).(nightActions := WithPasses(r.players, r.nightActions));
    assert Continues(r, passed);
    hide NightResolved, Continues, WithPasses;
    NightResolvedContinues(passed, at);
    ContinuesOn(r, passed, TimedOut(r, at));
  }

  lemma VotingTimeoutContinues(r: Room, at: int)
    requires r.phase == DayVoting
    ensures Continues(r, TimedOut(r, at)) && Later(r, TimedOut(r, at))
  {
    var abstained := Logged(r, PhaseTimedOut(r.phase), at).(votes := WithAbstentions(r.players, r.votes));
    assert Continues(r, abstained);
    hide VoteResolved, Continues;
    VoteResolvedContinues(abstained, at);
    ContinuesOn(r, abstained, TimedOut(r, at));
  }

  lemma LastWordsTimeoutContinues(r: Room, at: int)
    requires r.phase == LastWords
    ensures Continues(r, TimedOut(r, at)) && Later(r, TimedOut(r, at))
  {
    var silent := Logged(r, PhaseTimedOut(r.phase), at).(lastWords := NO_ID);
    assert Continues(r, silent);
    hide AfterDay, Continues;
    AfterDayContinues(silent, at);
    ContinuesOn(r, silent, TimedOut(r, at));
  }

  lemma TimedOutContinues(r: Room, at: int)
    requires IsActive(r.phase)
    ensures Continues(r, TimedOut(r, at)) && Later(r, TimedOut(r, at))
  {
    if r.phase == Night {
      NightTimeoutContinues(r, at);
    } else if r.phase == DayVoting {
      VotingTimeoutContinues(r, at);
    } else if r.phase == LastWords {
      LastWordsTimeoutContinues(r, at);
    } else {
      hide Continues, Later;
      assert Continues(r, TimedOut(r, at)) && Later(r, TimedOut(r, at)) by {
        OpeningAfterTimeout(r, at);
      }
    }
  }

  lemma OpeningAfterTimeout(r: Room, at: int)
    requires r.phase == DayDiscussion
    ensures Continues(r, TimedOut(r, at)) && Later(r, TimedOut(r, at))
  {
  }

  lemma SameCastContinues(r: Room, s: Room)
    requires SameCast(r.players, s.players) && s.record == r.record && s.phase == r.phase != Waiting && s.round == r.round
    ensures Continues(r, s)
  {
  }

  lemma StampedContinues(r: Room, s: Room, at: int)
    requires Continues(r, s)
    ensures Continues(r, s.(updatedAt := at))
  {
  }

  lemma NightMaybeResolvedContinues(r: Room, actions: Actions, at: int)
    requires r.phase == Night
    ensures Continues(r, NightMaybeResolved(r.(nightActions := actions), at))
  {
    var acted := r.(nightActions := actions);
    assert Continues(r, acted);
    hide NightResolved, AllNightActionsSubmitted;
    if AllNightActionsSubmitted(acted.players, acted.nightActions) {
      NightResolvedContinues(acted, at);
      hide Continues;
      ContinuesOn(r, acted, NightResolved(acted, at));
    }
  }

  lemma VoteContinues(r: Room, votes: Votes, at: int)
    requires r.phase == DayVoting
    ensures Continues(r, VoteMaybeResolved(r.(votes := votes), at))
  {
    var voted := r.(votes := votes);
    assert Continues(r, voted);
    hide VoteMaybeResolved, Continues;
    VoteMaybeResolvedContinues(voted, at);
    ContinuesOn(r, voted, VoteMaybeResolved(voted, at));
  }

  predicate IsPlay(kind: EventKind) {
    kind.NightActionOn? || kind.NightPass? || kind.StartVote? || kind.Vote? || kind.Shoot? || kind.PhaseTimeout?
  }

  lemma PlayContinues(r: Room, e: Event, entropy: Entropy)
    requires IsActive(r.phase) && IsPlay(e.kind) && Handled(r, e, entropy).Accepted?
    ensures Continues(r, Handled(r, e, entropy).room)
  {
    hide Continues, NightMaybeResolved, VoteMaybeResolved, ShotResolved, TimedOut, VotingOpened;
    match e.kind
    case NightActionOn(target) =>
      var actions := r.nightActions[e.player := NightAction(e.player, target, NightActionForRole(r.players[e.player].role).value.kind)];
      NightMaybeResolvedContinues(r, actions, e.at);
      StampedContinues(r, NightMaybeResolved(r.(nightActions := actions), e.at), e.at);
    case NightPass =>
      var actions := r.nightActions[e.player := NightAction(e.player, NO_ID, Pass)];
      NightMaybeResolvedContinues(r, actions, e.at);
      StampedContinues(r, NightMaybeResolved(r.(nightActions := actions), e.at), e.at);
    case StartVote =>
      OpeningContinues(r, e.player, e.at);
      StampedContinues(r, VotingOpened(r, e.player, e.at), e.at);
    case Vote(target) =>
      VoteContinues(r, r.votes[e.player := target], e.at);
      StampedContinues(r, VoteMaybeResolved(r.(votes := r.votes[e.player := target]), e.at), e.at);
    case Shoot(target) =>
      ShotContinues(r, e.player, target, e.at);
      StampedContinues(r, ShotResolved(r, e.player, target, e.at), e.at);
    case PhaseTimeout =>
      TimedOutContinues(r, e.at);
      StampedContinues(r, TimedOut(r, e.at), e.at);
  }

  lemma CosmeticContinues(r: Room, s: Room)
    requires Cosmetic(r, s) && r.phase != Waiting
    ensures Continues(r, s)
  {
    SameCastContinues(r, s);
    hide Continues;
  }

  // In a game, presence is all that other events can change.
  lemma OtherEventsAreCosmetic(r: Room, e: Event, entropy: Entropy)
    requires Inv(r) && IsActive(r.phase) && !IsPlay(e.kind) && !e.kind.ReturnToWaiting? && Handled(r, e, entropy).Accepted?
    ensures Cosmetic(r, Handled(r, e, entropy).room)
  {
    hide Inv, Cosmetic, AfterJoin, AfterLeave, AfterDisconnect, AfterStartGame, AfterSetGamePreset, AfterSetGameSettings, AfterSetPlayerLimit,
      AfterKick, ConnectedOwner;
    NoAdministrationInAGame(r, e, entropy);
    if TouchesOneParticipant(e.kind) {
      PresenceIsCosmetic(r, e, entropy);
    } else if e.kind.Join? {
      NewcomersWait(r, e.player, e.kind, e.at, entropy);
      JoinIsCosmetic(r, e.player, e.kind, e.at, entropy);
    } else {
      LeavingIsDisconnecting(r, e.player, e.at);
      DisconnectIsCosmetic(r, e.player, e.at);
    }
  }

  lemma NewcomersWait(r: Room, p: Id, kind: EventKind, at: int, entropy: Entropy)
    requires kind.Join? && r.phase != Waiting && AfterJoin(r, p, kind, at, entropy).Accepted?
    ensures p in r.players || p in r.spectators || kind.spectator
  {
  }

  lemma LeavingIsDisconnecting(r: Room, p: Id, at: int)
    requires r.phase != Waiting
    ensures AfterLeave(r, p, at) == AfterDisconnect(r, p, at)
  {
    hide AfterDisconnect;
  }

  lemma HandledContinues(r: Room, e: Event, entropy: Entropy)
    requires Inv(r) && IsActive(r.phase) && Handled(r, e, entropy).Accepted?
    ensures !e.kind.ReturnToWaiting? ==> Continues(r, Handled(r, e, entropy).room)
    ensures e.kind.ReturnToWaiting? ==> Handled(r, e, entropy).room.phase == Waiting
  {
    if e.kind.ReturnToWaiting? {
      ReturningWaits(r, e.player, e.at);
      hide Inv, AfterReturnToWaiting;
    } else if IsPlay(e.kind) {
      hide Inv, Handled;
      PlayContinues(r, e, entropy);
    } else {
      hide Inv, Handled, Cosmetic;
      OtherEventsAreCosmetic(r, e, entropy);
      CosmeticContinues(r, Handled(r, e, entropy).room);
    }
  }

  lemma ReturningWaits(r: Room, p: Id, at: int)
    ensures AfterReturnToWaiting(r, p, at).Accepted? ==> AfterReturnToWaiting(r, p, at).room.phase == Waiting
  {
    hide ConnectedOwner;
  }

  lemma NoAdministrationInAGame(r: Room, e: Event, entropy: Entropy)
    requires IsActive(r.phase)
    ensures e.kind.StartGame? || e.kind.SetGamePreset? || e.kind.SetGameSettings? || e.kind.SetPlayerLimit? || e.kind.KickParticipant?
      ==> Handled(r, e, entropy).Rejected?
  {
    hide ValidateForStart, Validate, ShuffledDeck, Dealt, GameStartedRoom;
  }

  lemma OpeningContinues(r: Room, opener: Id, at: int)
    requires r.phase == DayDiscussion
    ensures Continues(r, VotingOpened(r, opener, at))
  {
  }

  // A step of a running game continues it, unless the owner returns the room to waiting.
  lemma StepContinues(r: Room, input: Input)
    requires Inv(r) && IsActive(r.phase)
    ensures Continues(r, After(r, input)) || (After(r, input).phase == Waiting && input.event.kind.ReturnToWaiting?)
  {
    var e := input.event;
    if Step(r, e, input.entropy).Rejected? {
      hide Inv, Step;
      SameCastContinues(r, r);
    } else {
      hide Handled, Inv, WithSequence;
      HandledContinues(r, e, input.entropy);
      HandledKeepsInv(r, e, input.entropy);
      var s := Handled(r, e, input.entropy).room;
      SequenceIsCosmetic(s, e.player, e.sequence);
      hide Continues, Cosmetic;
      if s.phase == Waiting {
        SamePhase(s, WithSequence(s, e.player, e.sequence));
      } else {
        SequencedContinues(r, s, WithSequence(s, e.player, e.sequence));
      }
    }
  }

  lemma SamePhase(r: Room, s: Room)
    requires Cosmetic(r, s)
    ensures r.phase == s.phase
  {
  }

  lemma SequencedContinues(r: Room, s: Room, t: Room)
    requires Continues(r, s) && Cosmetic(s, t)
    ensures Continues(r, t)
  {
    SameCastSameCounts(s.players, t.players);
  }

  // Every step into the end of a game names the villagers exactly when no killer lives, and the
  // killers exactly when some live and are no fewer than the others.
  lemma GamesEndAsCounted(r: Room, input: Input)
    requires Reachable(r) && r.phase != Finished && After(r, input).phase == Finished
    ensures IsActive(r.phase) && EndsAsCounted(After(r, input))
  {
    ReachableInv(r);
    hide Inv, Step, EndsAsCounted;
    if r.phase == Waiting {
      WaitingDoesNotFinish(r, input);
    } else {
      StepContinues(r, input);
    }
  }

  lemma WaitingDoesNotFinish(r: Room, input: Input)
    requires Inv(r) && r.phase == Waiting
    ensures After(r, input).phase == Waiting || After(r, input).phase == Night
  {
    var e := input.event;
    if Step(r, e, input.entropy).Accepted? {
      hide Inv, Handled, WithSequence;
      HandledFromWaiting(r, e, input.entropy);
      HandledKeepsInv(r, e, input.entropy);
      var s := Handled(r, e, input.entropy).room;
      SequenceIsCosmetic(s, e.player, e.sequence);
      hide Cosmetic;
      SamePhase(s, WithSequence(s, e.player, e.sequence));
    } else {
      hide Inv, Step;
    }
  }

  lemma HandledFromWaiting(r: Room, e: Event, entropy: Entropy)
    requires Inv(r) && r.phase == Waiting && Handled(r, e, entropy).Accepted?
    ensures var s := Handled(r, e, entropy).room; s.phase == Waiting || s.phase == Night
  {
    assert r.deadline == None;
    hide Inv, AfterJoin, AfterLeave, AfterDisconnect, AfterStartGame, AfterKick, AfterSetPlayerLimit, AfterSetGameSettings,
      AfterSetGamePreset, AfterReady, AfterPresence, AfterChat, AfterNightAction, AfterNightPass, AfterVote, AfterShoot,
      AfterPhaseTimeout, AfterStartVote, AfterTransferOwner, AfterReturnToWaiting;
    if IsPlay(e.kind) {
      PlayNeedsAGame(r, e, entropy);
    } else if TouchesOneParticipant(e.kind) {
      PresenceIsCosmetic(r, e, entropy);
      SamePhase(r, Handled(r, e, entropy).room);
    } else if IsAdministration(e.kind) && !e.kind.ReturnToWaiting? {
      AdministrationKeepsPhase(r, e, entropy);
    } else if e.kind.Join? {
      JoiningKeepsPhase(r, e.player, e.kind, e.at, entropy);
    } else {
      LeavingKeepsPhase(r, e.player, e.at);
      StartingKeepsPhase(r, e.player, e.at, entropy);
      ReturningWaits(r, e.player, e.at);
    }
  }

  lemma StartingKeepsPhase(r: Room, p: Id, at: int, entropy: Entropy)
    requires r.phase == Waiting
    ensures AfterStartGame(r, p, at, entropy).Accepted? ==> AfterStartGame(r, p, at, entropy).room.phase == Night
  {
    hide StartRefusal, ShuffledDeck, Dealt, ValidateForStart;
  }

  lemma JoiningKeepsPhase(r: Room, p: Id, kind: EventKind, at: int, entropy: Entropy)
    requires kind.Join?
    ensures AfterJoin(r, p, kind, at, entropy).Accepted? ==> AfterJoin(r, p, kind, at, entropy).room.phase == r.phase
  {
    hide ConnectedOwner;
  }

  lemma LeavingKeepsPhase(r: Room, p: Id, at: int)
    ensures AfterDisconnect(r, p, at).Accepted? ==> AfterDisconnect(r, p, at).room.phase == r.phase
    ensures AfterLeave(r, p, at).Accepted? ==> AfterLeave(r, p, at).room.phase == r.phase
  {
    hide ConnectedOwner;
  }

  lemma PlayNeedsAGame(r: Room, e: Event, entropy: Entropy)
    requires r.phase == Waiting && r.deadline == None && IsPlay(e.kind)
    ensures Handled(r, e, entropy).Rejected?
  {
    hide NightMaybeResolved, VoteMaybeResolved, ShotResolved, TimedOut;
  }

  lemma SettingsKeepPhase(r: Room, settings: GameSettings, durations: PhaseDurations, at: int)
    ensures AfterSettings(r, settings, durations, at).Accepted? && AfterSettings(r, settings, durations, at).room.phase == r.phase
  {
    hide WithoutReadiness;
  }

  lemma AdministrationKeepsPhase(r: Room, e: Event, entropy: Entropy)
    requires IsAdministration(e.kind) && !e.kind.ReturnToWaiting?
    ensures Handled(r, e, entropy).Accepted? ==> Handled(r, e, entropy).room.phase == r.phase
  {
    hide AfterSettings, Validate, ValidateForStart, GameSettingsForPreset, AfterJoin, AfterLeave, AfterDisconnect, AfterStartGame, AfterReady, AfterChat,
      AfterPresence, AfterNightAction, AfterNightPass, AfterStartVote, AfterVote, AfterShoot, AfterTransferOwner, AfterReturnToWaiting, AfterPhaseTimeout;
    if Handled(r, e, entropy).Accepted? {
      if e.kind.SetGameSettings? {
        var custom := e.kind.settings.(preset := Custom);
        SettingsKeepPhase(r, custom, Validate(custom, r.maxPlayers).value, e.at);
      } else if e.kind.SetGamePreset? {
        var settings := GameSettingsForPreset(e.kind.preset, r.base).value;
        SettingsKeepPhase(r, settings, ValidateForStart(settings, r.maxPlayers, r.base).value, e.at);
      }
    }
  }

  ghost predicate ActiveThroughout(r: Room, inputs: seq<Input>) {
    forall i :: 0 <= i < |inputs| ==> IsActive(Run(r, inputs[..i]).phase)
  }

  // However many events a game takes, until it is over or abandoned: the same seats hold the same
  // roles, the dead stay dead, the record only grows, and (round, phase) never goes back.
  lemma {:induction false} GameIsOneStory(r: Room, inputs: seq<Input>)
    requires Inv(r) && IsActive(r.phase) && ActiveThroughout(r, inputs) && Run(r, inputs).phase != Waiting
    ensures Continues(r, Run(r, inputs))
  {
    if inputs == [] {
      SameCastContinues(r, r);
    } else {
      var init := inputs[..|inputs| - 1];
      assert forall i :: 0 <= i < |init| ==> init[..i] == inputs[..i];
      hide Inv;
      GameIsOneStory(r, init);
      RunKeepsInv(r, init);
      StepContinues(Run(r, init), inputs[|inputs| - 1]);
      hide Continues;
      ContinuesOn(r, Run(r, init), Run(r, inputs));
    }
  }
}
