// Every event keeps the invariant of the room.

module RoomSteps {
  import opened Order
  import opened Rules
  import opened Settings
  import opened RoomModel
  import opened RoomInvariant

  // ---- Seats coming and going -----------------------------------------------------------------

  lemma FewerSeats(r: Room, players: Players, spectators: map<Id, Spectator>)
    requires CapacityOk(r) && players.Keys <= r.players.Keys && spectators.Keys <= r.spectators.Keys
    ensures SeatsOk(players, spectators, r.maxPlayers, r.maxSpectators)
  {
    SubsetIsSmaller(players.Keys, r.players.Keys);
    SubsetIsSmaller(spectators.Keys, r.spectators.Keys);
    assert |players.Keys| == |players| && |r.players.Keys| == |r.players|;
    assert |spectators.Keys| == |spectators| && |r.spectators.Keys| == |r.spectators|;
  }

  lemma PlayerTouchedIsCosmetic(r: Room, s: Room)
    requires Inv(r) && SameCast(r.players, s.players)
    requires s == r.(players := s.players, owner := s.owner, locked := s.locked, updatedAt := s.updatedAt)
    ensures Cosmetic(r, s)
  {
    assert CapacityOk(r);
    hide Inv;
  }

  lemma SpectatorSeatsOk(r: Room, spectators: map<Id, Spectator>, p: Id)
    requires CapacityOk(r)
    requires spectators.Keys == r.spectators.Keys
      || (spectators.Keys == r.spectators.Keys + {p} && p !in r.players && p != NO_ID && |r.spectators| < r.maxSpectators)
    ensures SeatsOk(r.players, spectators, r.maxPlayers, r.maxSpectators)
  {
    assert |spectators.Keys| == |spectators| && |r.spectators.Keys| == |r.spectators|;
    if p !in r.spectators && spectators.Keys != r.spectators.Keys {
      assert |r.spectators.Keys + {p}| == |r.spectators.Keys| + 1;
    } else {
      assert spectators.Keys == r.spectators.Keys;
    }
  }

  lemma SpectatorTouchedIsCosmetic(r: Room, s: Room, p: Id)
    requires Inv(r) && s == r.(spectators := s.spectators, updatedAt := s.updatedAt)
    requires s.spectators.Keys == r.spectators.Keys
      || (s.spectators.Keys == r.spectators.Keys + {p} && p !in r.players && p != NO_ID && |r.spectators| < r.maxSpectators)
    ensures Cosmetic(r, s)
  {
    SpectatorSeatsOk(r, s.spectators, p);
    hide Inv;
  }

  // Joining, unless it takes a new player's seat, touches the one participant only.
  lemma JoinIsCosmetic(r: Room, p: Id, kind: EventKind, at: int, entropy: Entropy)
    requires Inv(r) && kind.Join? && AfterJoin(r, p, kind, at, entropy).Accepted?
    requires p in r.players || p in r.spectators || kind.spectator
    ensures Cosmetic(r, AfterJoin(r, p, kind, at, entropy).room)
  {
    hide Inv, Cosmetic, ConnectedOwner;
    var s := AfterJoin(r, p, kind, at, entropy).room;
    if p in r.players {
      assert s == Rejoined(r, p, kind.name).(updatedAt := at);
      hide AfterJoin;
      PlayerTouchedIsCosmetic(r, s);
    } else if p in r.spectators {
      assert s == SpectatorRejoined(r, p, kind.name).(updatedAt := at);
      hide AfterJoin;
      SpectatorTouchedIsCosmetic(r, s, p);
    } else {
      assert s == SpectatorSeated(r, p, kind.name, entropy.token, at).(updatedAt := at);
      assert p != NO_ID && |r.spectators| < r.maxSpectators;
      hide AfterJoin;
      SpectatorTouchedIsCosmetic(r, s, p);
    }
  }

  lemma SeatTakenKeepsInv(r: Room, p: Id, name: string, token: Token, at: int)
    requires Inv(r) && r.phase == Waiting && |r.players| < r.maxPlayers
    requires p != NO_ID && p !in r.players && p !in r.spectators
    ensures Inv(PlayerSeated(r, p, name, token, at))
  {
    var s := PlayerSeated(r, p, name, token, at);
    hide ValidateForStart, ActiveOk, FinishedOk;
    assert IdleOk(s);
    assert CapacityOk(s);
  }

  lemma JoinKeepsInv(r: Room, p: Id, kind: EventKind, at: int, entropy: Entropy)
    requires Inv(r) && kind.Join? && AfterJoin(r, p, kind, at, entropy).Accepted?
    ensures Inv(AfterJoin(r, p, kind, at, entropy).room)
  {
    hide Inv, Cosmetic, ConnectedOwner;
    if p in r.players || p in r.spectators || kind.spectator {
      hide AfterJoin;
      JoinIsCosmetic(r, p, kind, at, entropy);
      CosmeticKeepsInv(r, AfterJoin(r, p, kind, at, entropy).room);
    } else {
      hide PlayerSeated;
      SeatTakenKeepsInv(r, p, kind.name, entropy.token, at);
      UpdatedAtIsCosmetic(PlayerSeated(r, p, kind.name, entropy.token, at), at);
    }
  }

  lemma DroppedPlayerTouched(r: Room, p: Id)
    requires p in r.players
    ensures var s := PlayerDropped(r, p); s == r.(players := s.players, owner := s.owner) && SameCast(r.players, s.players)
  {
    hide ConnectedOwner;
  }

  lemma DisconnectIsCosmetic(r: Room, p: Id, at: int)
    requires Inv(r) && AfterDisconnect(r, p, at).Accepted?
    ensures Cosmetic(r, AfterDisconnect(r, p, at).room)
  {
    hide Inv, Cosmetic, PlayerDropped, SameCast;
    var s := AfterDisconnect(r, p, at).room;
    if p in r.players {
      DroppedPlayerTouched(r, p);
      PlayerTouchedIsCosmetic(r, s);
    } else {
      SpectatorTouchedIsCosmetic(r, s, p);
    }
  }

  lemma LeftWhileWaiting(r: Room, s: Room)
    requires Inv(r) && r.phase == Waiting
    requires s == r.(players := s.players, spectators := s.spectators, owner := s.owner, updatedAt := s.updatedAt)
    requires s.players.Keys <= r.players.Keys && s.spectators.Keys <= r.spectators.Keys
    requires forall q :: q in s.players ==> s.players[q] == r.players[q]
    ensures Inv(s)
  {
    hide ValidateForStart, ActiveOk, FinishedOk, SeatsOk;
    FewerSeats(r, s.players, s.spectators);
    assert IdleOk(s);
  }

  lemma SeatLeftKeepsInv(r: Room, p: Id, at: int)
    requires Inv(r) && r.phase == Waiting && (p in r.players || p in r.spectators)
    ensures Inv(AfterLeave(r, p, at).room)
  {
    hide Inv, Least, AfterDisconnect;
    LeftWhileWaiting(r, AfterLeave(r, p, at).room);
  }

  lemma LeaveKeepsInv(r: Room, p: Id, at: int)
    requires Inv(r) && AfterLeave(r, p, at).Accepted?
    ensures Inv(AfterLeave(r, p, at).room)
  {
    hide Inv, Cosmetic;
    if r.phase == Waiting && (p in r.players || p in r.spectators) {
      hide AfterLeave;
      SeatLeftKeepsInv(r, p, at);
    } else {
      assert AfterLeave(r, p, at) == AfterDisconnect(r, p, at);
      hide AfterLeave, AfterDisconnect;
      DisconnectIsCosmetic(r, p, at);
      CosmeticKeepsInv(r, AfterDisconnect(r, p, at).room);
    }
  }

  // ---- Administration -------------------------------------------------------------------------

  // A seat given up after the game takes its ballot with it, and the ballots cast for it.
  lemma KickedParts(players: Players, gone: Id, votes: Votes, record: seq<LogEntry>, round: int)
    requires RecordOk(players, record, round) && CastOk(players) && BallotsOk(players, votes)
    ensures RecordOk(players - {gone}, record, round) && CastOk(players - {gone})
    ensures BallotsOk(players - {gone}, map v | v in votes && v != gone :: if votes[v] == gone then NO_ID else votes[v])
  {
    hide Deaths, Shots, Distinct, RoundsOk;
  }

  lemma SeatGivenUpAfterGame(r: Room, s: Room)
    requires Inv(r) && r.phase == Finished
    requires s == r.(players := s.players, votes := s.votes, investigations := s.investigations, updatedAt := s.updatedAt)
    requires SeatsOk(s.players, s.spectators, s.maxPlayers, s.maxSpectators)
    requires RecordOk(s.players, s.record, s.round) && CastOk(s.players) && BallotsOk(s.players, s.votes)
    ensures Inv(s)
  {
    hide ValidateForStart, SeatsOk, ActiveOk, IdleOk, RecordOk, CastOk, BallotsOk;
  }

  lemma SeatGivenUpBeforeGame(r: Room, s: Room)
    requires Inv(r) && r.phase == Waiting
    requires s == r.(players := s.players, updatedAt := s.updatedAt)
    requires SeatsOk(s.players, s.spectators, s.maxPlayers, s.maxSpectators)
    requires s.players.Keys <= r.players.Keys && forall p :: p in s.players ==> s.players[p] == r.players[p]
    ensures Inv(s)
  {
    hide ValidateForStart, SeatsOk, ActiveOk, FinishedOk;
    assert IdleOk(s);
  }

  lemma SeatKickKeepsInv(r: Room, p: Id, target: Id, at: int)
    requires Inv(r) && AfterKick(r, p, target, at).Accepted? && target in r.players
    ensures Inv(AfterKick(r, p, target, at).room)
  {
    var s := AfterKick(r, p, target, at).room;
    FewerSeats(r, s.players, s.spectators);
    assert r.phase == Finished ==> FinishedOk(r);
    assert r.phase == Waiting ==> IdleOk(r);
    hide Inv, SeatsOk;
    if r.phase == Waiting {
      assert s == r.(players := s.players, updatedAt := s.updatedAt);
      hide IdleOk;
      SeatGivenUpBeforeGame(r, s);
    } else {
      hide RecordOk, CastOk, BallotsOk;
      KickedParts(r.players, target, r.votes, r.record, r.round);
      assert r.nightActions - {target} == r.nightActions;
      SeatGivenUpAfterGame(r, s);
    }
  }

  lemma KickKeepsInv(r: Room, p: Id, target: Id, at: int)
    requires Inv(r) && AfterKick(r, p, target, at).Accepted?
    ensures Inv(AfterKick(r, p, target, at).room)
  {
    if target in r.players {
      hide Inv;
      SeatKickKeepsInv(r, p, target, at);
    } else {
      var s := AfterKick(r, p, target, at).room;
      FewerSeats(r, s.players, s.spectators);
      assert Cosmetic(r, s);
      hide Inv, SeatsOk, AfterKick;
      CosmeticKeepsInv(r, s);
    }
  }

  lemma IdleStays(r: Room, s: Room)
    requires IdleOk(r) && SameCast(r.players, s.players)
    requires s == r.(settings := s.settings, durations := s.durations, maxPlayers := s.maxPlayers, players := s.players, updatedAt := s.updatedAt)
    ensures IdleOk(s)
  {
  }

  lemma AdministeredInv(r: Room, s: Room)
    requires Inv(r) && !IsActive(r.phase) && SettingsOk(s) && SameCast(r.players, s.players)
    requires s == r.(settings := s.settings, durations := s.durations, maxPlayers := s.maxPlayers, players := s.players, updatedAt := s.updatedAt)
    requires |r.players| <= s.maxPlayers
    ensures Inv(s)
  {
    hide ValidateForStart, ActiveOk, CastOk, RecordOk, BallotsOk, SameCast, HasKiller, ActionsOk, FindingsOk, RecordSeated;
    SameCastSameCounts(r.players, s.players);
    SameRolesSameCast(r.players, s.players);
    SameCastSameRecord(r.players, s.players, r.record, r.round);
    CosmeticKeepsBallots(r.players, s.players, r.votes, r.nightActions);
    if r.phase == Waiting {
      IdleStays(r, s);
    }
    hide IdleOk;
  }

  lemma SettingsAreInForce(r: Room, settings: GameSettings, durations: PhaseDurations, at: int)
    requires Inv(r) && ValidateForStart(settings, r.maxPlayers, r.base) == Ok(durations)
    ensures var s := AfterSettings(r, settings, durations, at).room;
      && SettingsOk(s) && SameCast(r.players, s.players) && |r.players| <= s.maxPlayers
      && s == r.(settings := settings, durations := durations, players := s.players, updatedAt := at)
  {
    hide ValidateForStart, IdleOk, ActiveOk, FinishedOk, ClockOk;
  }

  lemma SettingsKeepInv(r: Room, settings: GameSettings, durations: PhaseDurations, at: int)
    requires Inv(r) && !IsActive(r.phase) && ValidateForStart(settings, r.maxPlayers, r.base) == Ok(durations)
    ensures Inv(AfterSettings(r, settings, durations, at).room)
  {
    var s := AfterSettings(r, settings, durations, at).room;
    SettingsAreInForce(r, settings, durations, at);
    hide Inv, SettingsOk, ValidateForStart, AfterSettings, SameCast;
    AdministeredInv(r, s);
  }

  lemma LimitKeepsInv(r: Room, p: Id, limit: int, at: int)
    requires Inv(r) && AfterSetPlayerLimit(r, p, limit, at).Accepted?
    ensures Inv(AfterSetPlayerLimit(r, p, limit, at).room)
  {
    var s := AfterSetPlayerLimit(r, p, limit, at).room;
    assert SettingsOk(r);
    AcceptanceDependsOnMinimumOnly(r.settings, r.base, r.maxPlayers, limit);
    hide Inv, ValidateForStart;
    assert SettingsOk(s);
    AdministeredInv(r, s);
  }

  lemma WaitingAgainKeepsInv(r: Room, at: int)
    requires Inv(r)
    ensures Inv(WaitingAgain(r, at).(updatedAt := at))
  {
    var s := WaitingAgain(r, at).(updatedAt := at);
    FewerSeats(r, s.players, s.spectators);
    hide ValidateForStart, SeatsOk, ActiveOk, FinishedOk;
    assert IdleOk(s);
    hide IdleOk;
  }

  // ---- Play -----------------------------------------------------------------------------------

  lemma NightParts(r: Room)
    requires Inv(r) && r.phase == Night
    ensures GameCore(r) && ClockOk(r) && ActionsOk(r.players, r.nightActions)
    ensures r.votes == map[] && r.lastWords == NO_ID && r.result == None
    ensures if r.round == 1 then forall p :: p in r.players ==> r.players[p].alive else Balanced(r.players)
  {
    hide GameCore, Balanced, ClockOk, SettingsOk, CapacityOk, IdleOk, FinishedOk, ActionsOk;
  }

  lemma WithActions(r: Room, actions: Actions)
    requires GameCore(r)
    ensures GameCore(r.(nightActions := actions)) && (ClockOk(r) ==> ClockOk(r.(nightActions := actions)))
  {
    hide ValidateForStart, SeatsOk, CastOk, HasKiller, RecordOk, RecordSeated, FindingsOk, BallotsOk;
  }

  lemma ActedKeepsInv(r: Room, actions: Actions, at: int)
    requires Inv(r) && r.phase == Night && ActionsOk(r.players, actions)
    ensures Inv(NightMaybeResolved(r.(nightActions := actions), at).(updatedAt := at))
  {
    NightParts(r);
    WithActions(r, actions);
    var acted := r.(nightActions := actions);
    hide Inv, GameCore, ClockOk, ActionsOk, Balanced, NightResolved, AllNightActionsSubmitted;
    if AllNightActionsSubmitted(acted.players, actions) {
      NightResolvedKeepsInv(acted, at);
    } else {
      assert PhaseOk(acted);
      hide PhaseOk;
      ActiveInv(acted);
    }
    UpdatedAtIsCosmetic(NightMaybeResolved(acted, at), at);
  }

  lemma NightActionKeepsInv(r: Room, p: Id, target: Id, at: int)
    requires Inv(r) && AfterNightAction(r, p, target, at).Accepted?
    ensures Inv(AfterNightAction(r, p, target, at).room)
  {
    NightParts(r);
    hide Inv, GameCore, ClockOk, Balanced, NightMaybeResolved;
    var rule := NightActionForRole(r.players[p].role).value;
    var action := NightAction(p, target, rule.kind);
    assert ActionOk(r.players, p, action);
    hide ActionOk;
    ActedKeepsInv(r, r.nightActions[p := action], at);
  }

  lemma NightPassKeepsInv(r: Room, p: Id, at: int)
    requires Inv(r) && AfterNightPass(r, p, at).Accepted?
    ensures Inv(AfterNightPass(r, p, at).room)
  {
    NightParts(r);
    hide Inv, GameCore, ClockOk, Balanced, NightMaybeResolved;
    var action := NightAction(p, NO_ID, Pass);
    assert ActionOk(r.players, p, action);
    hide ActionOk;
    ActedKeepsInv(r, r.nightActions[p := action], at);
  }

  lemma StartVoteKeepsInv(r: Room, p: Id, at: int)
    requires Inv(r) && AfterStartVote(r, p, at).Accepted?
    ensures Inv(AfterStartVote(r, p, at).room)
  {
    DayParts(r);
    hide Inv, GameCore, ClockOk, Balanced, VotingOpened;
    VotingOpenedKeepsInv(r, p, at);
    UpdatedAtIsCosmetic(VotingOpened(r, p, at), at);
  }

  lemma OneMoreBallotOk(players: Players, votes: Votes, p: Id, target: Id)
    requires IsLiving(players, p) && (target == NO_ID || IsLiving(players, target))
    ensures BallotsOk(players, votes) ==> BallotsOk(players, votes[p := target])
  {
  }

  lemma BallotKeepsCore(r: Room, p: Id, target: Id)
    requires GameCore(r) && IsLiving(r.players, p) && (target == NO_ID || IsLiving(r.players, target))
    ensures GameCore(r.(votes := r.votes[p := target])) && (ClockOk(r) ==> ClockOk(r.(votes := r.votes[p := target])))
  {
    hide ValidateForStart, SeatsOk, CastOk, HasKiller, RecordOk, RecordSeated, FindingsOk, BallotsOk;
    OneMoreBallotOk(r.players, r.votes, p, target);
  }

  lemma VoteKeepsInv(r: Room, p: Id, target: Id, at: int)
    requires Inv(r) && AfterVote(r, p, target, at).Accepted?
    ensures Inv(AfterVote(r, p, target, at).room)
  {
    DayParts(r);
    hide Inv, GameCore, ClockOk, Balanced, VoteMaybeResolved;
    var voted := r.(votes := r.votes[p := target]);
    BallotKeepsCore(r, p, target);
    VoteMaybeResolvedKeepsInv(voted, at);
    UpdatedAtIsCosmetic(VoteMaybeResolved(voted, at), at);
  }

  lemma ShotKeepsInv(r: Room, p: Id, target: Id, at: int)
    requires Inv(r) && AfterShoot(r, p, target, at).Accepted?
    ensures Inv(AfterShoot(r, p, target, at).room)
  {
    hide Inv, ShotResolved;
    ShootKeepsInv(r, p, target, at);
    UpdatedAtIsCosmetic(ShotResolved(r, p, target, at), at);
  }

  // ---- Timeouts -------------------------------------------------------------------------------

  lemma OneMoreActionOk(players: Players, actions: Actions, p: Id, action: NightAction)
    requires ActionsOk(players, actions) && ActionOk(players, p, action)
    ensures ActionsOk(players, actions[p := action])
  {
    hide ActionOk;
  }

  lemma PassesAreOk(players: Players, actions: Actions)
    requires ActionsOk(players, actions)
    ensures ActionsOk(players, WithPasses(players, actions))
    ensures AllNightActionsSubmitted(players, WithPasses(players, actions))
  {
    var passed := WithPasses(players, actions);
    forall p | p in passed ensures ActionOk(players, p, passed[p]) {
      if p in actions {
        assert ActionOk(players, p, actions[p]);
      }
    }
  }

  lemma AbstentionsKeepCore(r: Room)
    requires GameCore(r)
    ensures GameCore(r.(votes := WithAbstentions(r.players, r.votes)))
    ensures AllLivingVoted(r.players, WithAbstentions(r.players, r.votes))
  {
    assert BallotsOk(r.players, WithAbstentions(r.players, r.votes));
    hide ValidateForStart, SeatsOk, CastOk, HasKiller, RecordOk, RecordSeated, FindingsOk, BallotsOk;
  }

  lemma LastWordsParts(r: Room)
    requires Inv(r) && r.phase == LastWords
    ensures GameCore(r) && r.nightActions == map[] && r.votes == map[] && r.result == None
  {
    hide GameCore, Balanced, ClockOk, SettingsOk, CapacityOk, IdleOk, FinishedOk;
  }

  lemma NightTimeoutKeepsInv(r: Room, at: int)
    requires Inv(r) && r.phase == Night
    ensures Inv(TimedOut(r, at))
  {
    hide Inv, GameCore, ClockOk, ActionsOk, Balanced, NightResolved, WithPasses, AllNightActionsSubmitted;
    NightParts(r);
    PassesAreOk(r.players, r.nightActions);
    var expired := Logged(r, PhaseTimedOut(r.phase), at);
    NeutralEntryKeepsCore(r, PhaseTimedOut(r.phase), at);
    WithActions(expired, WithPasses(r.players, r.nightActions));
    NightResolvedKeepsInv(expired.(nightActions := WithPasses(r.players, r.nightActions)), at);
  }

  lemma DayTimeoutKeepsInv(r: Room, at: int)
    requires Inv(r) && IsDay(r.phase)
    ensures Inv(TimedOut(r, at))
  {
    hide Inv, GameCore, ClockOk, Balanced, VoteResolved, WithAbstentions, AllLivingVoted;
    DayParts(r);
    var expired := Logged(r, PhaseTimedOut(r.phase), at);
    NeutralEntryKeepsCore(r, PhaseTimedOut(r.phase), at);
    if r.phase == DayDiscussion {
      VotingOpenedKeepsInv(expired, NO_ID, at);
    } else {
      AbstentionsKeepCore(expired);
      VoteResolvedKeepsInv(expired.(votes := WithAbstentions(r.players, r.votes)), at);
    }
  }

  lemma LastWordsTimeoutKeepsInv(r: Room, at: int)
    requires Inv(r) && r.phase == LastWords
    ensures Inv(TimedOut(r, at))
  {
    LastWordsParts(r);
    hide Inv, GameCore, AfterDay;
    var expired := Logged(r, PhaseTimedOut(r.phase), at);
    NeutralEntryKeepsCore(r, PhaseTimedOut(r.phase), at);
    NoBallots(expired, NO_ID);
    AfterDayKeepsInv(expired.(lastWords := NO_ID), at);
  }

  lemma TimeoutKeepsInv(r: Room, at: int)
    requires Inv(r) && AfterPhaseTimeout(r, at).Accepted?
    ensures Inv(AfterPhaseTimeout(r, at).room)
  {
    hide Inv, TimedOut;
    if r.phase == Night {
      NightTimeoutKeepsInv(r, at);
    } else if IsDay(r.phase) {
      DayTimeoutKeepsInv(r, at);
    } else {
      LastWordsTimeoutKeepsInv(r, at);
    }
    UpdatedAtIsCosmetic(TimedOut(r, at), at);
  }

  // ---- Every event ----------------------------------------------------------------------------

  predicate IsAdministration(kind: EventKind) {
    kind.SetPlayerLimit? || kind.SetGameSettings? || kind.SetGamePreset? || kind.KickParticipant? || kind.ReturnToWaiting?
  }

  lemma AdminKeepsInv(r: Room, e: Event, entropy: Entropy)
    requires Inv(r) && Handled(r, e, entropy).Accepted?
    requires IsAdministration(e.kind)
    ensures Inv(Handled(r, e, entropy).room)
  {
    hide Inv, ValidateForStart, Validate;
    match e.kind
    case SetPlayerLimit(limit) => LimitKeepsInv(r, e.player, limit, e.at);
    case SetGameSettings(settings) =>
      CustomIsStartable(settings.(preset := Custom), r.maxPlayers, r.base);
      SettingsKeepInv(r, settings.(preset := Custom), Validate(settings.(preset := Custom), r.maxPlayers).value, e.at);
    case SetGamePreset(preset) =>
      var settings := GameSettingsForPreset(preset, r.base).value;
      SettingsKeepInv(r, settings, ValidateForStart(settings, r.maxPlayers, r.base).value, e.at);
    case KickParticipant(target) => KickKeepsInv(r, e.player, target, e.at);
    case ReturnToWaiting => WaitingAgainKeepsInv(r, e.at);
  }

  lemma CustomIsStartable(s: GameSettings, maxPlayers: int, base: PhaseDurations)
    requires s.preset == Custom
    ensures ValidateForStart(s, maxPlayers, base) == Validate(s, maxPlayers)
  {
  }

  predicate TouchesOneParticipant(kind: EventKind) {
    kind.Ready? || kind.Chat? || kind.TransferOwner? || kind.SetRoomLocked? || kind.Presence?
  }

  lemma AfkSpectator(r: Room, p: Id, afk: bool, at: int)
    requires p !in r.players && AfterPresence(r, p, afk, at).Accepted?
    ensures var s := AfterPresence(r, p, afk, at).room;
      s == r.(spectators := s.spectators, updatedAt := s.updatedAt) && s.spectators.Keys == r.spectators.Keys
  {
  }

  lemma PresenceIsCosmetic(r: Room, e: Event, entropy: Entropy)
    requires Inv(r) && TouchesOneParticipant(e.kind) && Handled(r, e, entropy).Accepted?
    ensures Cosmetic(r, Handled(r, e, entropy).room)
  {
    hide Inv, Cosmetic, SameCast, AfterPresence, AfterReady, AfterChat, AfterTransferOwner, AfterShoot, AfterPhaseTimeout, AfterStartVote,
      AfterJoin, AfterLeave, AfterDisconnect, AfterStartGame, AfterNightAction, AfterNightPass, AfterVote,
      AfterKick, AfterSetPlayerLimit, AfterSetGameSettings, AfterSetGamePreset, AfterReturnToWaiting;
    var s := Handled(r, e, entropy).room;
    if e.kind.Presence? && e.player !in r.players {
      AfkSpectator(r, e.player, e.kind.afk, e.at);
      SpectatorTouchedIsCosmetic(r, s, e.player);
    } else {
      PresenceTouchesPlayer(r, e, entropy);
      hide Handled;
      PlayerTouchedIsCosmetic(r, s);
    }
  }

  ghost predicate TouchesPlayer(r: Room, s: Room) {
    SameCast(r.players, s.players) && s == r.(players := s.players, owner := s.owner, locked := s.locked, updatedAt := s.updatedAt)
  }

  lemma ReadyTouchesPlayer(r: Room, p: Id, ready: bool, at: int)
    requires AfterReady(r, p, ready, at).Accepted?
    ensures TouchesPlayer(r, AfterReady(r, p, ready, at).room)
  {
  }

  lemma ChatTouchesPlayer(r: Room, p: Id, message: string, at: int)
    requires AfterChat(r, p, message, at).Accepted?
    ensures AfterChat(r, p, message, at).room == r.(updatedAt := at)
  {
  }

  lemma AfkTouchesPlayer(r: Room, p: Id, afk: bool, at: int)
    requires p in r.players && AfterPresence(r, p, afk, at).Accepted?
    ensures TouchesPlayer(r, AfterPresence(r, p, afk, at).room)
  {
  }

  lemma PresenceTouchesPlayer(r: Room, e: Event, entropy: Entropy)
    requires TouchesOneParticipant(e.kind) && Handled(r, e, entropy).Accepted?
    requires e.kind.Presence? ==> e.player in r.players
    ensures TouchesPlayer(r, Handled(r, e, entropy).room)
  {
    hide AfterReady, AfterChat, AfterPresence, AfterJoin, AfterLeave, AfterDisconnect, AfterStartGame, AfterNightAction, AfterNightPass, AfterStartVote, AfterVote, AfterShoot, AfterKick,
      AfterSetPlayerLimit, AfterSetGameSettings, AfterSetGamePreset, AfterReturnToWaiting, AfterPhaseTimeout;
    match e.kind
    case Ready(ready) => ReadyTouchesPlayer(r, e.player, ready, e.at);
    case Chat(message) => ChatTouchesPlayer(r, e.player, message, e.at);
    case Presence(afk) => AfkTouchesPlayer(r, e.player, afk, e.at);
    case _ =>
  }

  lemma HandledKeepsInv(r: Room, e: Event, entropy: Entropy)
    requires Inv(r) && Handled(r, e, entropy).Accepted?
    ensures Inv(Handled(r, e, entropy).room)
  {
    hide Inv, Cosmetic, AfterJoin, AfterLeave, AfterDisconnect, AfterStartGame, AfterNightAction, AfterNightPass, AfterVote,
      AfterShoot, AfterKick, AfterSetPlayerLimit, AfterSetGameSettings, AfterSetGamePreset, AfterReturnToWaiting,
      AfterPhaseTimeout, AfterStartVote, AfterReady, AfterChat, AfterTransferOwner, AfterPresence;
    if TouchesOneParticipant(e.kind) {
      PresenceIsCosmetic(r, e, entropy);
      CosmeticKeepsInv(r, Handled(r, e, entropy).room);
    } else if IsAdministration(e.kind) {
      AdminKeepsInv(r, e, entropy);
    } else {
      match e.kind
      case Join(_, _, _) => JoinKeepsInv(r, e.player, e.kind, e.at, entropy);
      case Leave => LeaveKeepsInv(r, e.player, e.at);
      case Disconnect =>
        DisconnectIsCosmetic(r, e.player, e.at);
        CosmeticKeepsInv(r, Handled(r, e, entropy).room);
      case StartGame => StartKeepsInv(r, e.player, e.at, entropy);
      case NightActionOn(target) => NightActionKeepsInv(r, e.player, target, e.at);
      case NightPass => NightPassKeepsInv(r, e.player, e.at);
      case StartVote => StartVoteKeepsInv(r, e.player, e.at);
      case Vote(target) => VoteKeepsInv(r, e.player, target, e.at);
      case Shoot(target) => ShotKeepsInv(r, e.player, target, e.at);
      case PhaseTimeout => TimeoutKeepsInv(r, e.at);
      case _ =>
    }
  }

  lemma SequenceIsCosmetic(r: Room, p: Id, sequence: nat)
    requires Inv(r)
    ensures Cosmetic(r, WithSequence(r, p, sequence))
  {
    hide Inv, Cosmetic;
    var s := WithSequence(r, p, sequence);
    if p in r.players || p !in r.spectators {
      PlayerTouchedIsCosmetic(r, s);
    } else {
      SpectatorTouchedIsCosmetic(r, s, p);
    }
  }

  lemma StepKeepsInv(r: Room, e: Event, entropy: Entropy)
    requires Inv(r) && Step(r, e, entropy).Accepted?
    ensures Inv(Step(r, e, entropy).room)
  {
    hide Inv, Handled, WithSequence, Cosmetic;
    HandledKeepsInv(r, e, entropy);
    var s := Handled(r, e, entropy).room;
    SequenceIsCosmetic(s, e.player, e.sequence);
    CosmeticKeepsInv(s, WithSequence(s, e.player, e.sequence));
  }

  lemma NewRoomInv(durations: PhaseDurations, maxSpectators: int, now: int)
    requires durations.Valid() && maxSpectators > 0
    ensures Inv(NewRoom(durations, maxSpectators, now))
  {
    PresetsAreStartable(Standard, durations, DEFAULT_MAX_PLAYERS);
  }
}
