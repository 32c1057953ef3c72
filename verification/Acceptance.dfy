// Which events a room takes, in one table. Where the invariant leaves no choice the table is shorter than the
// program's checks: a start is never refused for its settings, a shot never for hitting nobody.

module Acceptance {
  import opened Rules
  import opened Settings
  import opened RoomModel
  import opened RoomInvariant
  import opened Outcomes

  // A seat is taken again only as the same kind of participant, and with the seat's own token.
  predicate MayJoin(r: Room, p: Id, kind: EventKind, entropy: Entropy)
    requires kind.Join?
  {
    && p != NO_ID && kind.name != ""
    && if p in r.players then !kind.spectator && kind.token != NO_TOKEN && kind.token == r.players[p].token
       else if p in r.spectators then kind.spectator && kind.token != NO_TOKEN && kind.token == r.spectators[p].token
       else
         && !r.locked && entropy.token != NO_TOKEN
         && if kind.spectator then |r.spectators| < r.maxSpectators else r.phase == Waiting && |r.players| < r.maxPlayers
  }

  // In a running game the living talk among themselves, and in last words only the one executed does.
  predicate MaySpeak(r: Room, p: Id) {
    if p in r.players then
      !IsActive(r.phase) || (if r.phase == LastWords then p == r.lastWords else r.players[p].alive)
    else p in r.spectators && !IsActive(r.phase)
  }

  predicate MayStart(r: Room, p: Id, entropy: Entropy) {
    && r.phase == Waiting && p == r.owner && r.settings.minimumPlayers <= |r.players| <= |entropy.draws|
    && forall q :: q in r.players && q != r.owner ==> r.players[q].ready
  }

  predicate IsPhaseLength(text: DurationText) {
    text.Some? && SECOND <= text.value <= 60 * MINUTE
  }

  // Custom settings with phases of a second to an hour, a minimum the room can hold, one killer and at most one
  // of each other role.
  predicate AreSound(s: GameSettings, maxPlayers: int) {
    && IsPhaseLength(s.night) && IsPhaseLength(s.discussion) && IsPhaseLength(s.voting) && IsPhaseLength(s.lastWords)
    && 2 <= s.minimumPlayers <= 20 && s.minimumPlayers <= maxPlayers
    && s.roles.killers == 1 && s.roles.detectives in {0, 1} && s.roles.doctors in {0, 1} && s.roles.escorts in {0, 1} && s.roles.shooters in {0, 1}
  }

  // A running phase has lasted as long as the settings in force say.
  predicate HasRunOut(r: Room, at: int) {
    var length :=
      if r.phase == Night then r.settings.night
      else if r.phase == DayDiscussion then r.settings.discussion
      else if r.phase == DayVoting then r.settings.voting
      else if r.phase == LastWords then r.settings.lastWords
      else None;
    length.Some? && r.startedAt + length.value <= at
  }

  ghost predicate IsTaken(r: Room, e: Event, entropy: Entropy) {
    var p := e.player;
    match e.kind
    case Join(_, _, _) => MayJoin(r, p, e.kind, entropy)
    case Leave => IsSeated(r, p)
    case Disconnect => IsSeated(r, p)
    case Ready(_) => r.phase == Waiting && p in r.players
    case StartGame => MayStart(r, p, entropy)
    case Chat(message) => MaySpeak(r, p) && 0 < |message| <= 500
    case NightActionOn(target) =>
      r.phase == Night && ActsAtNight(r.players, p) && IsLiving(r.players, target) && (target == p ==> r.players[p].role == Doctor)
    case NightPass => r.phase == Night && ActsAtNight(r.players, p)
    case StartVote => r.phase == DayDiscussion && p == r.owner
    case Vote(target) => r.phase == DayVoting && IsLiving(r.players, p) && (target == NO_ID || IsLiving(r.players, target))
    case Shoot(target) =>
      && IsDay(r.phase) && IsLiving(r.players, p) && r.players[p].role == Shooter && !r.players[p].shooterUsed
      && IsLiving(r.players, target) && target != p
    case TransferOwner(target) => p == r.owner && target in r.players && r.players[target].connected
    case KickParticipant(target) => p == r.owner && !IsActive(r.phase) && target != r.owner && IsSeated(r, target)
    case SetRoomLocked(_) => p == r.owner
    case SetPlayerLimit(limit) => p == r.owner && !IsActive(r.phase) && |r.players| <= limit <= 20 && r.settings.minimumPlayers <= limit
    case SetGameSettings(settings) => p == r.owner && !IsActive(r.phase) && AreSound(settings, r.maxPlayers)
    case SetGamePreset(preset) =>
      && p == r.owner && !IsActive(r.phase) && preset != Custom
      && GameSettingsForPreset(preset, r.base).value.minimumPlayers <= r.maxPlayers
    case Presence(_) => IsSeated(r, p)
    case ReturnToWaiting => r.phase != Waiting && p == r.owner
    case PhaseTimeout => HasRunOut(r, e.at)
    case Unknown => false
  }

  lemma JoinIsTaken(r: Room, e: Event, entropy: Entropy)
    requires e.kind.Join?
    ensures AfterJoin(r, e.player, e.kind, e.at, entropy).Accepted? <==> MayJoin(r, e.player, e.kind, entropy)
  {
    hide Rejoined, SpectatorRejoined, SpectatorSeated, PlayerSeated;
  }

  lemma LeaveIsTaken(r: Room, p: Id, at: int)
    ensures AfterDisconnect(r, p, at).Accepted? <==> IsSeated(r, p)
    ensures AfterLeave(r, p, at).Accepted? <==> IsSeated(r, p)
  {
    hide PlayerDropped, SpectatorDropped, Least;
  }

  lemma SettingsAreStartable(r: Room)
    requires Inv(r)
    ensures ValidateForStart(r.settings, r.maxPlayers, r.base).Ok? && 2 <= r.settings.minimumPlayers <= 20 && r.base.Valid()
  {
    SettingsFacts(r);
    hide ValidateForStart;
  }

  lemma StartIsTaken(r: Room, p: Id, at: int, entropy: Entropy)
    requires Inv(r)
    ensures AfterStartGame(r, p, at, entropy).Accepted? <==> MayStart(r, p, entropy)
  {
    hide Inv, ValidateForStart, ShuffledDeck, GameStartedRoom;
    SettingsAreStartable(r);
  }

  lemma ChatIsTaken(r: Room, p: Id, message: string, at: int)
    ensures AfterChat(r, p, message, at).Accepted? <==> MaySpeak(r, p) && 0 < |message| <= 500
  {
  }

  lemma KickIsTaken(r: Room, p: Id, target: Id, at: int)
    ensures AfterKick(r, p, target, at).Accepted? <==> p == r.owner && !IsActive(r.phase) && target != r.owner && IsSeated(r, target)
  {
    hide Unseated;
  }

  lemma LimitIsTaken(r: Room, p: Id, limit: int, at: int)
    requires Inv(r)
    ensures AfterSetPlayerLimit(r, p, limit, at).Accepted? <==>
      p == r.owner && !IsActive(r.phase) && |r.players| <= limit <= 20 && r.settings.minimumPlayers <= limit
  {
    hide Inv;
    SettingsAreStartable(r);
    hide ValidateForStart;
  }

  lemma PresetIsTaken(r: Room, p: Id, preset: GamePreset, at: int)
    requires Inv(r)
    ensures AfterSetGamePreset(r, p, preset, at).Accepted? <==>
      && p == r.owner && !IsActive(r.phase) && preset != Custom
      && GameSettingsForPreset(preset, r.base).value.minimumPlayers <= r.maxPlayers
  {
    hide Inv, WithoutReadiness;
    SettingsAreStartable(r);
    if preset != Custom {
      PresetsAreStartable(preset, r.base, r.maxPlayers);
    }
    hide ValidateForStart;
  }

  lemma CustomIsTaken(r: Room, p: Id, settings: GameSettings, at: int)
    ensures AfterSetGameSettings(r, p, settings, at).Accepted? <==> p == r.owner && !IsActive(r.phase) && AreSound(settings, r.maxPlayers)
  {
    hide WithoutReadiness;
    assert Validate(settings.(preset := Custom), r.maxPlayers).Ok? <==> AreSound(settings, r.maxPlayers);
    hide Validate, AreSound;
  }

  // The durations in force are those of the settings.
  lemma DurationsAreThoseSet(r: Room)
    requires Inv(r)
    ensures r.settings.night == Some(r.durations.night) && r.settings.discussion == Some(r.durations.discussion)
    ensures r.settings.voting == Some(r.durations.voting) && r.settings.lastWords == Some(r.durations.lastWords)
  {
    assert SettingsOk(r);
    hide Inv;
  }

  lemma TimeoutIsTaken(r: Room, at: int)
    requires Inv(r)
    ensures AfterPhaseTimeout(r, at).Accepted? <==> HasRunOut(r, at)
  {
    hide Inv, TimedOut;
    ClockStands(r);
    DurationsAreThoseSet(r);
  }

  lemma ClockStands(r: Room)
    requires Inv(r)
    ensures r.deadline == if IsActive(r.phase) then Some(r.startedAt + r.durations.For(r.phase)) else None
  {
    assert ClockOk(r);
    hide Inv;
  }

  lemma SimpleIsTaken(r: Room, e: Event, entropy: Entropy)
    requires e.kind.Ready? || e.kind.StartVote? || e.kind.TransferOwner? || e.kind.SetRoomLocked? || e.kind.Presence? || e.kind.ReturnToWaiting? || e.kind.Unknown?
    ensures Handled(r, e, entropy).Accepted? <==> IsTaken(r, e, entropy)
  {
    hide VotingOpened, WaitingAgain, MayJoin, MaySpeak, MayStart, AreSound, GameSettingsForPreset, ActsAtNight, AfterJoin, AfterLeave, AfterDisconnect,
      AfterStartGame, AfterChat, AfterNightAction, AfterNightPass, AfterVote, AfterShoot, AfterKick, AfterSetPlayerLimit, AfterSetGameSettings,
      AfterSetGamePreset, AfterPhaseTimeout;
  }

  lemma PlayIsTaken(r: Room, e: Event, entropy: Entropy)
    requires Inv(r) && (e.kind.NightActionOn? || e.kind.NightPass? || e.kind.Vote? || e.kind.Shoot?)
    ensures Step(r, e, entropy).Accepted? <==> !IsDuplicate(r, e) && IsTaken(r, e, entropy)
  {
    hide Inv, Step, IsDuplicate, MayJoin, MaySpeak, MayStart, AreSound, GameSettingsForPreset, ActsAtNight;
    if IsNightChoice(e.kind) {
      NightChoiceIsAcceptedExactly(r, e, entropy);
    } else {
      BallotIsAcceptedExactly(r, e, entropy);
    }
  }

  // An event is taken exactly if its number is new to the seat and the table has it.
  lemma AcceptedExactly(r: Room, e: Event, entropy: Entropy)
    requires Inv(r)
    ensures Step(r, e, entropy).Accepted? <==> !IsDuplicate(r, e) && IsTaken(r, e, entropy)
  {
    if e.kind.NightActionOn? || e.kind.NightPass? || e.kind.Vote? || e.kind.Shoot? {
      hide Inv, Step, IsTaken;
      PlayIsTaken(r, e, entropy);
    } else {
      hide Inv, IsDuplicate;
      HandledIsTaken(r, e, entropy);
      hide Handled, IsTaken;
    }
  }

  lemma HandledIsTaken(r: Room, e: Event, entropy: Entropy)
    requires Inv(r) && !(e.kind.NightActionOn? || e.kind.NightPass? || e.kind.Vote? || e.kind.Shoot?)
    ensures Handled(r, e, entropy).Accepted? <==> IsTaken(r, e, entropy)
  {
    hide Inv, MayJoin, MaySpeak, MayStart, AreSound, GameSettingsForPreset, AfterJoin, AfterLeave, AfterDisconnect, AfterStartGame, AfterReady, AfterChat,
      AfterPresence, AfterNightAction, AfterNightPass, AfterStartVote, AfterVote, AfterShoot, AfterTransferOwner, AfterKick, AfterSetPlayerLimit,
      AfterSetGameSettings, AfterSetGamePreset, AfterReturnToWaiting, AfterPhaseTimeout, IsSeated;
    if e.kind.Join? {
      JoinIsTaken(r, e, entropy);
    } else if e.kind.Leave? || e.kind.Disconnect? {
      LeaveIsTaken(r, e.player, e.at);
    } else if e.kind.StartGame? {
      StartIsTaken(r, e.player, e.at, entropy);
    } else if e.kind.Chat? {
      ChatIsTaken(r, e.player, e.kind.message, e.at);
    } else if e.kind.KickParticipant? {
      KickIsTaken(r, e.player, e.kind.target, e.at);
    } else if e.kind.SetPlayerLimit? {
      LimitIsTaken(r, e.player, e.kind.maxPlayers, e.at);
    } else if e.kind.SetGameSettings? {
      CustomIsTaken(r, e.player, e.kind.settings, e.at);
    } else if e.kind.SetGamePreset? {
      PresetIsTaken(r, e.player, e.kind.preset, e.at);
    } else if e.kind.PhaseTimeout? {
      TimeoutIsTaken(r, e.at);
    } else {
      SimpleIsTaken(r, e, entropy);
    }
  }

  // What is said goes out under the speaker's name, and changes nothing in the room.
  lemma ChatIsPassedOn(r: Room, e: Event, entropy: Entropy)
    requires e.kind.Chat? && Handled(r, e, entropy).Accepted? && r.players.Keys !! r.spectators.Keys
    ensures var outcome := Handled(r, e, entropy);
      && outcome.room == r.(updatedAt := e.at) && IsSeated(r, e.player)
      && outcome.reply == ChatReply(e.player, if e.player in r.players then r.players[e.player].name else r.spectators[e.player].name, e.kind.message)
  {
  }

  lemma OnlyChatTalks(r: Room, e: Event, entropy: Entropy)
    requires Handled(r, e, entropy).Accepted? && !e.kind.Chat?
    ensures Handled(r, e, entropy).reply == StateReply
  {
    hide NightMaybeResolved, VoteMaybeResolved, ShotResolved, TimedOut, WaitingAgain, Validate, ValidateForStart, GameSettingsForPreset, WithoutReadiness,
      Rejoined, SpectatorRejoined, PlayerSeated, SpectatorSeated, PlayerDropped, SpectatorDropped, Unseated, StartRefusal, GameStartedRoom, VotingOpened;
  }
}
