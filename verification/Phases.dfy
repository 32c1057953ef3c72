// When a phase begins: the clock, the round and the record say so (internal/room/state.go).

module Phases {
  import opened Rules
  import opened Settings
  import opened RoomModel
  import opened RoomInvariant
  import opened RoomSteps
  import opened RoomRuns
  import opened Seats

  // What the record says as a phase begins.
  predicate Announces(kind: LogKind, s: Room) {
    match s.phase
    case Waiting => false
    case Night => kind.NightStarted?
    case DayDiscussion => kind.DayStarted?
    case DayVoting => kind.VotingStarted?
    case LastWords => kind == LastWordsStarted(s.lastWords)
    case Finished => s.result.Some? && kind == GameFinished(s.result.value.winner)
  }

  predicate HasBegun(s: Room, at: int, round: int) {
    && s.startedAt == at && s.round == round && s.record != []
    && var last := s.record[|s.record| - 1];
       last.at == at && last.round == round && Announces(last.kind, s)
  }

  // The same phase goes on as it was, a new one begins now, and a night that follows another is a new round.
  predicate ClockFollows(r: Room, s: Room, at: int) {
    if s.phase == r.phase then s.startedAt == r.startedAt && s.round == r.round && r.record <= s.record
    else HasBegun(s, at, r.round + if s.phase == Night then 1 else 0)
  }

  lemma FinishBegins(r: Room, at: int)
    ensures HasBegun(FinishGame(r, at), at, r.round) && FinishGame(r, at).phase == Finished
  {
    hide WinnerOf;
  }

  lemma EnteredBegins(r: Room, phase: Phase, kind: LogKind, at: int)
    requires Announces(kind, r.(phase := phase))
    ensures HasBegun(Entered(r, phase, kind, at), at, r.round) && Entered(r, phase, kind, at).phase == phase
  {
  }

  lemma DayEndBegins(r: Room, at: int)
    ensures var s := AfterDay(r, at);
      s.phase in {Finished, Night} && HasBegun(s, at, r.round + if s.phase == Night then 1 else 0)
  {
    hide IsDecided, FinishGame;
    FinishBegins(r, at);
  }

  lemma MorningBegins(r: Room, at: int)
    ensures var s := NightResolved(r, at); s.phase in {Finished, DayDiscussion} && HasBegun(s, at, r.round)
  {
    hide IsDecided, FinishGame, Morning;
    var morning := Morning(r, at);
    MorningRound(r, at);
    FinishBegins(morning, at);
  }

  lemma MorningRound(r: Room, at: int)
    ensures Morning(r, at).round == r.round
  {
    hide Victims, Investigated, PrunedVotes, EliminationLog, Slain;
  }

  lemma VerdictBegins(r: Room, at: int)
    requires AllLivingVoted(r.players, r.votes)
    ensures var s := VoteResolved(r, at);
      s.phase in {Finished, Night, LastWords} && HasBegun(s, at, r.round + if s.phase == Night then 1 else 0)
  {
    hide Elected, PrunedVotes, AllLivingVoted, AfterDay, Slain;
    DayEndBegins(Logged(r.(votes := map[]), VoteNoExecution, at), at);
  }

  lemma NightGoesOn(r: Room, at: int)
    requires r.phase == Night
    ensures ClockFollows(r, NightMaybeResolved(r, at), at)
  {
    hide NightResolved, AllNightActionsSubmitted, HasBegun;
    MorningBegins(r, at);
  }

  lemma VoteGoesOn(r: Room, at: int)
    requires r.phase == DayVoting
    ensures ClockFollows(r, VoteMaybeResolved(r, at), at)
  {
    hide VoteResolved, AllLivingVoted, HasBegun;
    if AllLivingVoted(r.players, r.votes) {
      VerdictBegins(r, at);
    }
  }

  lemma ShotGoesOn(r: Room, p: Id, target: Id, at: int)
    requires p in r.players && IsDay(r.phase)
    ensures ClockFollows(r, ShotResolved(r, p, target, at), at)
  {
    hide VoteMaybeResolved, FinishGame, IsDecided, HasBegun, Slain, PrunedVotes;
    var fired := ShotFired(r, p, target, at);
    FinishBegins(fired, at);
    if fired.phase == DayVoting {
      VoteGoesOn(fired, at);
    }
  }

  lemma VoteExpires(r: Room, at: int)
    requires r.phase == DayVoting
    ensures var s := VoteResolved(Logged(r, PhaseTimedOut(r.phase), at).(votes := WithAbstentions(r.players, r.votes)), at);
      ClockFollows(r, s, at) && s.phase != DayVoting
  {
    hide VoteResolved, HasBegun, WithAbstentions;
    AllAbstain(r.players, r.votes);
    VerdictBegins(Logged(r, PhaseTimedOut(r.phase), at).(votes := WithAbstentions(r.players, r.votes)), at);
  }

  lemma ExpiryGoesOn(r: Room, at: int)
    requires IsActive(r.phase)
    ensures ClockFollows(r, TimedOut(r, at), at) && TimedOut(r, at).phase != r.phase
  {
    hide NightResolved, VoteResolved, AfterDay, HasBegun, WithPasses, WithAbstentions;
    var expired := Logged(r, PhaseTimedOut(r.phase), at);
    if r.phase == Night {
      MorningBegins(expired.(nightActions := WithPasses(r.players, r.nightActions)), at);
    } else if r.phase == DayVoting {
      VoteExpires(r, at);
    } else if r.phase == LastWords {
      DayEndBegins(expired.(lastWords := NO_ID), at);
    } else {
      EnteredBegins(expired.(votes := map[]), DayVoting, VotingStarted(NO_ID), at);
    }
  }

  lemma ChosenGoesOn(r: Room, p: Id, target: Id, at: int)
    requires AfterNightAction(r, p, target, at).Accepted?
    ensures ClockFollows(r, AfterNightAction(r, p, target, at).room, at)
  {
    hide NightMaybeResolved, HasBegun;
    var acted := r.(nightActions := r.nightActions[p := NightAction(p, target, NightActionForRole(r.players[p].role).value.kind)]);
    NightGoesOn(acted, at);
    StampGoesOn(r, NightMaybeResolved(acted, at), at);
  }

  lemma PassedGoesOn(r: Room, p: Id, at: int)
    requires AfterNightPass(r, p, at).Accepted?
    ensures ClockFollows(r, AfterNightPass(r, p, at).room, at)
  {
    hide NightMaybeResolved, HasBegun;
    var acted := r.(nightActions := r.nightActions[p := NightAction(p, NO_ID, Pass)]);
    NightGoesOn(acted, at);
    StampGoesOn(r, NightMaybeResolved(acted, at), at);
  }

  lemma VotedGoesOn(r: Room, p: Id, target: Id, at: int)
    requires AfterVote(r, p, target, at).Accepted?
    ensures ClockFollows(r, AfterVote(r, p, target, at).room, at)
  {
    hide VoteMaybeResolved, HasBegun;
    var voted := r.(votes := r.votes[p := target]);
    VoteGoesOn(voted, at);
    StampGoesOn(r, VoteMaybeResolved(voted, at), at);
  }

  lemma StampGoesOn(r: Room, s: Room, at: int)
    requires ClockFollows(r, s, at)
    ensures ClockFollows(r, s.(updatedAt := at), at)
  {
  }

  lemma ShootGoesOn(r: Room, p: Id, target: Id, at: int)
    requires AfterShoot(r, p, target, at).Accepted?
    ensures ClockFollows(r, AfterShoot(r, p, target, at).room, at)
  {
    hide ShotResolved, HasBegun, ClockFollows;
    ShotGoesOn(r, p, target, at);
    StampGoesOn(r, ShotResolved(r, p, target, at), at);
  }

  lemma StartVoteGoesOn(r: Room, p: Id, at: int)
    requires AfterStartVote(r, p, at).Accepted?
    ensures ClockFollows(r, AfterStartVote(r, p, at).room, at) && AfterStartVote(r, p, at).room.phase == DayVoting
  {
    EnteredBegins(r.(votes := map[]), DayVoting, VotingStarted(p), at);
  }

  lemma TimeoutGoesOn(r: Room, at: int)
    requires AfterPhaseTimeout(r, at).Accepted?
    ensures ClockFollows(r, AfterPhaseTimeout(r, at).room, at) && AfterPhaseTimeout(r, at).room.phase != r.phase
  {
    hide TimedOut, HasBegun, ClockFollows;
    ExpiryGoesOn(r, at);
    StampGoesOn(r, TimedOut(r, at), at);
  }

  lemma PlayGoesOn(r: Room, e: Event, entropy: Entropy)
    requires IsPlay(e.kind) && Handled(r, e, entropy).Accepted?
    ensures ClockFollows(r, Handled(r, e, entropy).room, e.at)
  {
    hide ClockFollows, AfterNightAction, AfterNightPass, AfterStartVote, AfterVote, AfterShoot, AfterPhaseTimeout;
    match e.kind
    case NightActionOn(target) => ChosenGoesOn(r, e.player, target, e.at);
    case NightPass => PassedGoesOn(r, e.player, e.at);
    case StartVote => StartVoteGoesOn(r, e.player, e.at);
    case Vote(target) => VotedGoesOn(r, e.player, target, e.at);
    case Shoot(target) => ShootGoesOn(r, e.player, target, e.at);
    case PhaseTimeout => TimeoutGoesOn(r, e.at);
  }

  // ---- Events that are no moves of the game ---------------------------------------------------

  predicate SameGame(r: Room, s: Room) {
    s.phase == r.phase && s.startedAt == r.startedAt && s.round == r.round && s.record == r.record && s.result == r.result && s.lastWords == r.lastWords
  }

  lemma RejoiningKeepsGame(r: Room, p: Id, name: string)
    ensures p in r.players ==> SameGame(r, Rejoined(r, p, name))
    ensures p in r.spectators ==> SameGame(r, SpectatorRejoined(r, p, name))
  {
    hide ConnectedOwner;
  }

  lemma ArrivingKeepsGame(r: Room, p: Id, name: string, token: Token, at: int)
    ensures SameGame(r, PlayerSeated(r, p, name, token, at)) && SameGame(r, SpectatorSeated(r, p, name, token, at))
  {
  }

  lemma ComingKeepsGame(r: Room, p: Id, kind: EventKind, at: int, entropy: Entropy)
    requires kind.Join? && AfterJoin(r, p, kind, at, entropy).Accepted?
    ensures SameGame(r, AfterJoin(r, p, kind, at, entropy).room)
  {
    hide Rejoined, SpectatorRejoined, PlayerSeated, SpectatorSeated;
    RejoiningKeepsGame(r, p, kind.name);
    ArrivingKeepsGame(r, p, kind.name, entropy.token, at);
  }

  lemma GoingKeepsGame(r: Room, p: Id, at: int)
    ensures AfterDisconnect(r, p, at).Accepted? ==> SameGame(r, AfterDisconnect(r, p, at).room)
    ensures AfterLeave(r, p, at).Accepted? ==> SameGame(r, AfterLeave(r, p, at).room)
  {
    hide ConnectedOwner, Least;
  }

  lemma SettingsKeepGame(r: Room, settings: GameSettings, durations: PhaseDurations, at: int)
    ensures SameGame(r, AfterSettings(r, settings, durations, at).room)
  {
    hide WithoutReadiness;
  }

  lemma KickKeepsGame(r: Room, p: Id, target: Id, at: int)
    requires AfterKick(r, p, target, at).Accepted?
    ensures SameGame(r, AfterKick(r, p, target, at).room)
  {
    hide VotesWithout;
  }

  lemma ReadyKeepsGame(r: Room, p: Id, ready: bool, at: int)
    requires AfterReady(r, p, ready, at).Accepted?
    ensures SameGame(r, AfterReady(r, p, ready, at).room)
  {
  }

  lemma PresenceKeepsGame(r: Room, p: Id, afk: bool, at: int)
    requires AfterPresence(r, p, afk, at).Accepted?
    ensures SameGame(r, AfterPresence(r, p, afk, at).room)
  {
  }

  lemma TalkKeepsGame(r: Room, e: Event, entropy: Entropy)
    requires TouchesOneParticipant(e.kind) || e.kind.SetPlayerLimit?
    requires Handled(r, e, entropy).Accepted?
    ensures SameGame(r, Handled(r, e, entropy).room)
  {
    hide AfterReady, AfterPresence, AfterChat, AfterJoin, AfterLeave, AfterDisconnect, AfterStartGame, AfterNightAction, AfterNightPass, AfterStartVote,
      AfterVote, AfterShoot, AfterKick, AfterSetGameSettings, AfterSetGamePreset, AfterReturnToWaiting, AfterPhaseTimeout;
    if e.kind.Chat? {
      ChatTouchesPlayer(r, e.player, e.kind.message, e.at);
    } else if e.kind.Ready? {
      ReadyKeepsGame(r, e.player, e.kind.ready, e.at);
    } else if e.kind.Presence? {
      PresenceKeepsGame(r, e.player, e.kind.afk, e.at);
    }
  }

  lemma OthersKeepGame(r: Room, e: Event, entropy: Entropy)
    requires !IsPlay(e.kind) && !e.kind.StartGame? && !e.kind.ReturnToWaiting? && Handled(r, e, entropy).Accepted?
    ensures SameGame(r, Handled(r, e, entropy).room)
  {
    hide SameGame, AfterJoin, AfterLeave, AfterDisconnect, AfterStartGame, AfterReady, AfterPresence, AfterChat, AfterNightAction, AfterNightPass,
      AfterStartVote, AfterVote, AfterShoot, AfterKick, AfterReturnToWaiting, AfterPhaseTimeout, AfterSettings, Validate, ValidateForStart,
      GameSettingsForPreset, AfterTransferOwner, AfterSetPlayerLimit;
    if TouchesOneParticipant(e.kind) || e.kind.SetPlayerLimit? {
      TalkKeepsGame(r, e, entropy);
    } else if e.kind.Join? {
      ComingKeepsGame(r, e.player, e.kind, e.at, entropy);
    } else if e.kind.Leave? || e.kind.Disconnect? {
      GoingKeepsGame(r, e.player, e.at);
    } else if e.kind.KickParticipant? {
      KickKeepsGame(r, e.player, e.kind.target, e.at);
    } else if e.kind.SetGameSettings? {
      var custom := e.kind.settings.(preset := Custom);
      SettingsKeepGame(r, custom, Validate(custom, r.maxPlayers).value, e.at);
    } else {
      var settings := GameSettingsForPreset(e.kind.preset, r.base).value;
      SettingsKeepGame(r, settings, ValidateForStart(settings, r.maxPlayers, r.base).value, e.at);
    }
  }

  lemma SequenceKeepsGame(s: Room, p: Id, n: nat)
    ensures SameGame(s, WithSequence(s, p, n))
  {
  }

  // What any event but the start and the return makes of the clock, the round and the record.
  lemma PhasesFollow(r: Room, e: Event, entropy: Entropy)
    requires !e.kind.StartGame? && !e.kind.ReturnToWaiting? && Step(r, e, entropy).Accepted?
    ensures ClockFollows(r, Step(r, e, entropy).room, e.at)
  {
    hide Handled, WithSequence, IsDuplicate;
    if IsPlay(e.kind) {
      PlayGoesOn(r, e, entropy);
    } else {
      OthersKeepGame(r, e, entropy);
    }
    SequenceKeepsGame(Handled(r, e, entropy).room, e.player, e.sequence);
  }

  // A game starts with its first night, and everything of the game before is gone; a return clears everything too.
  lemma GamesStartAfresh(r: Room, e: Event, entropy: Entropy)
    requires (e.kind.StartGame? || e.kind.ReturnToWaiting?) && Step(r, e, entropy).Accepted?
    ensures var s := Step(r, e, entropy).room;
      && s.startedAt == e.at && s.nightActions == map[] && s.votes == map[] && s.investigations == map[] && s.lastWords == NO_ID && s.result == None
      && (e.kind.StartGame? ==> s.phase == Night && s.round == 1 && s.record == [LogEntry(GameStarted(e.player), 1, e.at), LogEntry(NightStarted, 1, e.at)])
      && (e.kind.ReturnToWaiting? ==> s.phase == Waiting && s.round == 0 && s.record == [])
  {
    hide WithSequence, IsDuplicate, AfterJoin, AfterLeave, AfterDisconnect, AfterReady, AfterPresence, AfterChat, AfterNightAction, AfterNightPass,
      AfterStartVote, AfterVote, AfterShoot, AfterKick, AfterPhaseTimeout, AfterSetGameSettings, AfterSetGamePreset, AfterTransferOwner,
      AfterSetPlayerLimit, StartRefusal, ShuffledDeck, ValidateForStart, Dealt, SeatsReset, SpectatorsKept, ConnectedOwner;
    SequenceKeepsAll(Handled(r, e, entropy).room, e.player, e.sequence);
  }

  lemma SequenceKeepsAll(s: Room, p: Id, n: nat)
    ensures var t := WithSequence(s, p, n); t == s.(players := t.players, spectators := t.spectators)
  {
  }
}
