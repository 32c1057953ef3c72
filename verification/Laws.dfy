// The room field by field: what any event makes of a seat, of the owner and of the rules in force, and which
// events are taken at all (internal/room/state.go). RoomModel says it event by event; these laws cut across.

module Laws {
  import opened Rules
  import opened Settings
  import opened RoomModel
  import opened RoomInvariant
  import opened RoomSteps
  import opened RoomRuns
  import opened Seats

  // ---- Seats ------------------------------------------------------------------------------------

  predicate IsBy(e: Event, p: Id) {
    e.player == p
  }

  predicate IsNewcomer(r: Room, e: Event, p: Id) {
    e.player == p && e.kind.Join? && p !in r.players && p !in r.spectators
  }

  predicate GoesAway(e: Event, p: Id) {
    e.player == p && (e.kind.Leave? || e.kind.Disconnect?)
  }

  // Leaving or being kicked costs the seat before and after a game, and returning to waiting while away.
  predicate LosesSeat(r: Room, e: Event, p: Id, connected: bool) {
    || (e.player == p && e.kind.Leave? && r.phase == Waiting)
    || (e.kind.KickParticipant? && e.kind.target == p)
    || (e.kind.ReturnToWaiting? && !connected)
  }

  predicate SetsRules(kind: EventKind) {
    kind.SetGameSettings? || kind.SetGamePreset?
  }

  function NameAfter(e: Event, p: Id, name: string): string {
    if e.player == p && e.kind.Join? then e.kind.name else name
  }

  function ConnectedAfter(e: Event, p: Id, connected: bool): bool {
    if e.player == p && e.kind.Join? then true else if GoesAway(e, p) then false else connected
  }

  function AfkAfter(e: Event, p: Id, afk: bool): bool {
    if e.player == p && e.kind.Presence? then e.kind.afk else if (e.player == p && e.kind.Join?) || GoesAway(e, p) then false else afk
  }

  function ReadyAfter(r: Room, e: Event, p: Id, ready: bool): bool {
    if e.player == p && e.kind.Ready? then e.kind.ready
    else if e.kind.ReturnToWaiting? || (SetsRules(e.kind) && p != r.owner) then false
    else ready
  }

  function ShotAfter(e: Event, p: Id, used: bool): bool {
    if e.kind.StartGame? || e.kind.ReturnToWaiting? then false else used || (e.player == p && e.kind.Shoot?)
  }

  // A player's seat, but for role, life and cursor.
  ghost predicate PlayerFollows(r: Room, e: Event, entropy: Entropy, s: Room, p: Id) {
    && (p in s.players <==> (p in r.players && !LosesSeat(r, e, p, r.players[p].connected)) || (IsNewcomer(r, e, p) && !e.kind.spectator))
    && (p in r.players && p in s.players ==>
        var a, b := r.players[p], s.players[p];
        b == Player(NameAfter(e, p, a.name), a.token, ReadyAfter(r, e, p, a.ready), ConnectedAfter(e, p, a.connected), b.role, b.alive,
                    ShotAfter(e, p, a.shooterUsed), AfkAfter(e, p, a.afk), b.lastSequence, a.joinedAt))
    && (p !in r.players && p in s.players ==>
        s.players[p] == Player(e.kind.name, entropy.token, false, true, NoRole, true, false, false, s.players[p].lastSequence, e.at) && entropy.token != NO_TOKEN)
  }

  ghost predicate SpectatorFollows(r: Room, e: Event, entropy: Entropy, s: Room, p: Id) {
    && (p in s.spectators <==> (p in r.spectators && !LosesSeat(r, e, p, r.spectators[p].connected)) || (IsNewcomer(r, e, p) && e.kind.spectator))
    && (p in r.spectators && p in s.spectators ==>
        var a, b := r.spectators[p], s.spectators[p];
        b == Spectator(NameAfter(e, p, a.name), a.token, ConnectedAfter(e, p, a.connected), AfkAfter(e, p, a.afk), b.lastSequence, a.joinedAt))
    && (p !in r.spectators && p in s.spectators ==>
        s.spectators[p] == Spectator(e.kind.name, entropy.token, true, false, s.spectators[p].lastSequence, e.at) && entropy.token != NO_TOKEN)
  }

  ghost predicate SeatsFollow(r: Room, e: Event, entropy: Entropy, s: Room) {
    forall p :: PlayerFollows(r, e, entropy, s, p) && SpectatorFollows(r, e, entropy, s, p)
  }

  // ---- The rules in force -------------------------------------------------------------------------

  ghost predicate RulesFollow(r: Room, e: Event, s: Room) {
    && s.base == r.base && s.maxSpectators == r.maxSpectators && s.updatedAt == e.at
    && s.locked == (if e.kind.SetRoomLocked? then e.kind.locked else r.locked)
    && s.maxPlayers == (if e.kind.SetPlayerLimit? then e.kind.maxPlayers else r.maxPlayers)
    && (e.kind.SetGameSettings? ==> s.settings == e.kind.settings.(preset := Custom))
    && (e.kind.SetGamePreset? ==> GameSettingsForPreset(e.kind.preset, r.base) == Ok(s.settings))
    && (!SetsRules(e.kind) ==> s.settings == r.settings)
  }

  // ---- The owner --------------------------------------------------------------------------------

  // A connected owner stays, or else the least of those connected succeeds, if there are any.
  ghost function Successor(owner: Id, players: Players): Id {
    if (owner in players && players[owner].connected) || Connected(players) == {} then owner else Least(Connected(players))
  }

  // Who owns the room after an event: the one named; the first player in a room without an owner; the least
  // player left when the owner leaves a waiting room for good; and where somebody's coming or going may have left
  // the owner away, the successor.
  ghost function OwnerAfter(r: Room, e: Event, s: Room): Id {
    if e.kind.TransferOwner? then e.kind.target
    else if e.kind.Join? && e.player !in r.players then
      if IsNewcomer(r, e, e.player) && !e.kind.spectator && r.owner == NO_ID then e.player else r.owner
    else if e.kind.Leave? && r.phase == Waiting then
      if e.player != r.owner || e.player !in r.players then r.owner else if s.players == map[] then NO_ID else Least(s.players.Keys)
    else if e.kind.Leave? || e.kind.Disconnect? then
      if e.player == r.owner && e.player in r.players then Successor(r.owner, s.players) else r.owner
    else if e.kind.Join? || e.kind.ReturnToWaiting? then Successor(r.owner, s.players)
    else r.owner
  }

  // ---- Seats, event by event ----------------------------------------------------------------------

  // Events that leave seats alone but for lives and shots.
  lemma PlayObeys(r: Room, e: Event, entropy: Entropy)
    requires Inv(r) && IsPlay(e.kind) && Handled(r, e, entropy).Accepted?
    ensures SeatsFollow(r, e, entropy, Handled(r, e, entropy).room)
  {
    hide Inv, Handled;
    PlayNeedsAnActiveGame(r, e, entropy);
    PlayKeepsEveryone(r, e, entropy);
  }

  predicate LeavesSeats(kind: EventKind) {
    kind.Chat? || kind.TransferOwner? || kind.SetRoomLocked? || kind.SetPlayerLimit?
  }

  lemma NobodyMoves(r: Room, e: Event, entropy: Entropy, s: Room)
    requires LeavesSeats(e.kind) && s.players == r.players && s.spectators == r.spectators
    ensures SeatsFollow(r, e, entropy, s)
  {
  }

  lemma OnePlayerMoves(r: Room, e: Event, entropy: Entropy, s: Room, p: Id)
    requires r.players.Keys !! r.spectators.Keys
    requires e.kind.Join? || e.kind.Disconnect? || (e.kind.Leave? && r.phase != Waiting) || e.kind.Ready? || e.kind.Presence?
    requires e.player == p && p in r.players && p in s.players && s.players == r.players[p := s.players[p]] && s.spectators == r.spectators
    requires var a := r.players[p];
      s.players[p] == a.(name := NameAfter(e, p, a.name), ready := ReadyAfter(r, e, p, a.ready), connected := ConnectedAfter(e, p, a.connected), afk := AfkAfter(e, p, a.afk))
    ensures SeatsFollow(r, e, entropy, s)
  {
  }

  lemma OneSpectatorMoves(r: Room, e: Event, entropy: Entropy, s: Room, p: Id)
    requires r.players.Keys !! r.spectators.Keys
    requires e.kind.Join? || e.kind.Disconnect? || (e.kind.Leave? && r.phase != Waiting) || e.kind.Presence?
    requires e.player == p && p in r.spectators && p in s.spectators && s.spectators == r.spectators[p := s.spectators[p]] && s.players == r.players
    requires var a := r.spectators[p];
      s.spectators[p] == a.(name := NameAfter(e, p, a.name), connected := ConnectedAfter(e, p, a.connected), afk := AfkAfter(e, p, a.afk))
    ensures SeatsFollow(r, e, entropy, s)
  {
  }

  lemma PlayerArrives(r: Room, e: Event, entropy: Entropy, s: Room)
    requires IsNewcomer(r, e, e.player) && !e.kind.spectator && entropy.token != NO_TOKEN && s.spectators == r.spectators
    requires s.players == r.players[e.player := Player(e.kind.name, entropy.token, false, true, NoRole, true, false, false, 0, e.at)]
    ensures SeatsFollow(r, e, entropy, s)
  {
  }

  lemma SpectatorArrives(r: Room, e: Event, entropy: Entropy, s: Room)
    requires IsNewcomer(r, e, e.player) && e.kind.spectator && entropy.token != NO_TOKEN && s.players == r.players
    requires s.spectators == r.spectators[e.player := Spectator(e.kind.name, entropy.token, true, false, 0, e.at)]
    ensures SeatsFollow(r, e, entropy, s)
  {
  }

  lemma OneGoes(r: Room, e: Event, entropy: Entropy, s: Room, p: Id)
    requires (e.kind.Leave? && e.player == p && r.phase == Waiting) || (e.kind.KickParticipant? && e.kind.target == p)
    requires r.players.Keys !! r.spectators.Keys
    requires s.players == r.players - {p} && s.spectators == r.spectators - {p}
    ensures SeatsFollow(r, e, entropy, s)
  {
  }

  lemma JoinObeys(r: Room, e: Event, entropy: Entropy)
    requires r.players.Keys !! r.spectators.Keys && e.kind.Join? && AfterJoin(r, e.player, e.kind, e.at, entropy).Accepted?
    ensures SeatsFollow(r, e, entropy, AfterJoin(r, e.player, e.kind, e.at, entropy).room)
  {
    hide SeatsFollow, ConnectedOwner;
    var p, s := e.player, AfterJoin(r, e.player, e.kind, e.at, entropy).room;
    if p in r.players {
      OnePlayerMoves(r, e, entropy, s, p);
    } else if p in r.spectators {
      OneSpectatorMoves(r, e, entropy, s, p);
    } else if e.kind.spectator {
      SpectatorArrives(r, e, entropy, s);
    } else {
      PlayerArrives(r, e, entropy, s);
    }
  }

  lemma DisconnectObeys(r: Room, e: Event, entropy: Entropy)
    requires r.players.Keys !! r.spectators.Keys && AfterDisconnect(r, e.player, e.at).Accepted?
    requires e.kind.Disconnect? || (e.kind.Leave? && r.phase != Waiting)
    ensures SeatsFollow(r, e, entropy, AfterDisconnect(r, e.player, e.at).room)
  {
    hide SeatsFollow, ConnectedOwner;
    var p, s := e.player, AfterDisconnect(r, e.player, e.at).room;
    if p in r.players {
      OnePlayerMoves(r, e, entropy, s, p);
    } else {
      OneSpectatorMoves(r, e, entropy, s, p);
    }
  }

  lemma LeaveObeys(r: Room, e: Event, entropy: Entropy)
    requires r.players.Keys !! r.spectators.Keys && e.kind.Leave? && AfterLeave(r, e.player, e.at).Accepted?
    ensures SeatsFollow(r, e, entropy, AfterLeave(r, e.player, e.at).room)
  {
    hide SeatsFollow, PlayerDropped, Least;
    if r.phase != Waiting {
      DisconnectObeys(r, e, entropy);
    } else {
      assert e.player in r.players ==> r.spectators - {e.player} == r.spectators;
      assert e.player in r.spectators ==> r.players - {e.player} == r.players;
      OneGoes(r, e, entropy, AfterLeave(r, e.player, e.at).room, e.player);
    }
  }

  lemma ReadyObeys(r: Room, e: Event, entropy: Entropy)
    requires r.players.Keys !! r.spectators.Keys && e.kind.Ready? && AfterReady(r, e.player, e.kind.ready, e.at).Accepted?
    ensures SeatsFollow(r, e, entropy, AfterReady(r, e.player, e.kind.ready, e.at).room)
  {
    hide SeatsFollow;
    OnePlayerMoves(r, e, entropy, AfterReady(r, e.player, e.kind.ready, e.at).room, e.player);
  }

  lemma PresenceObeys(r: Room, e: Event, entropy: Entropy)
    requires r.players.Keys !! r.spectators.Keys && e.kind.Presence? && AfterPresence(r, e.player, e.kind.afk, e.at).Accepted?
    ensures SeatsFollow(r, e, entropy, AfterPresence(r, e.player, e.kind.afk, e.at).room)
  {
    hide SeatsFollow;
    var p, s := e.player, AfterPresence(r, e.player, e.kind.afk, e.at).room;
    if p in r.players {
      OnePlayerMoves(r, e, entropy, s, p);
    } else {
      OneSpectatorMoves(r, e, entropy, s, p);
    }
  }

  lemma KickObeys(r: Room, e: Event, entropy: Entropy)
    requires r.players.Keys !! r.spectators.Keys && e.kind.KickParticipant? && AfterKick(r, e.player, e.kind.target, e.at).Accepted?
    ensures SeatsFollow(r, e, entropy, AfterKick(r, e.player, e.kind.target, e.at).room)
  {
    hide SeatsFollow;
    var target := e.kind.target;
    assert target in r.players ==> r.spectators - {target} == r.spectators;
    assert target in r.spectators ==> r.players - {target} == r.players;
    OneGoes(r, e, entropy, AfterKick(r, e.player, target, e.at).room, target);
  }

  lemma SettingsObey(r: Room, e: Event, entropy: Entropy, settings: GameSettings, durations: PhaseDurations)
    requires SetsRules(e.kind)
    ensures SeatsFollow(r, e, entropy, AfterSettings(r, settings, durations, e.at).room)
  {
  }

  lemma EveryoneIsDealtIn(r: Room, e: Event, entropy: Entropy, s: Room)
    requires e.kind.StartGame? && s.spectators == r.spectators && s.players.Keys == r.players.Keys
    requires forall p :: p in r.players ==> s.players[p] == r.players[p].(role := s.players[p].role, alive := true, shooterUsed := false)
    ensures SeatsFollow(r, e, entropy, s)
  {
  }

  lemma StartObeys(r: Room, e: Event, entropy: Entropy)
    requires e.kind.StartGame? && AfterStartGame(r, e.player, e.at, entropy).Accepted?
    ensures SeatsFollow(r, e, entropy, AfterStartGame(r, e.player, e.at, entropy).room)
  {
    hide SeatsFollow, StartRefusal, ShuffledDeck, ValidateForStart, Sorted, Dealt;
    var roles := ShuffledDeck(|r.players|, r.settings.roles, entropy.draws);
    DealtRoles(r.players, roles);
    forall p | p in r.players
      ensures p in Dealt(r.players, roles)
      ensures Dealt(r.players, roles)[p] == r.players[p].(role := Dealt(r.players, roles)[p].role, alive := true, shooterUsed := false)
    {
      DealtSeat(r.players, roles, p);
    }
    EveryoneIsDealtIn(r, e, entropy, AfterStartGame(r, e.player, e.at, entropy).room);
  }

  lemma ReturnObeys(r: Room, e: Event, entropy: Entropy)
    requires e.kind.ReturnToWaiting?
    ensures SeatsFollow(r, e, entropy, WaitingAgain(r, e.at))
  {
    hide ConnectedOwner;
  }

  lemma StampObeys(r: Room, e: Event, entropy: Entropy, s: Room, t: Room)
    requires SeatsFollow(r, e, entropy, s) && t.players == s.players && t.spectators == s.spectators
    ensures SeatsFollow(r, e, entropy, t)
  {
    hide PlayerFollows, SpectatorFollows;
    forall p ensures PlayerFollows(r, e, entropy, t, p) && SpectatorFollows(r, e, entropy, t, p) {
      assert PlayerFollows(r, e, entropy, s, p) && SpectatorFollows(r, e, entropy, s, p);
      StampSeat(r, e, entropy, s, t, p);
    }
  }

  lemma StampSeat(r: Room, e: Event, entropy: Entropy, s: Room, t: Room, p: Id)
    requires PlayerFollows(r, e, entropy, s, p) && SpectatorFollows(r, e, entropy, s, p) && t.players == s.players && t.spectators == s.spectators
    ensures PlayerFollows(r, e, entropy, t, p) && SpectatorFollows(r, e, entropy, t, p)
  {
  }

  predicate IsAttendance(kind: EventKind) {
    kind.Join? || kind.Leave? || kind.Disconnect? || kind.Ready? || kind.Presence?
  }

  lemma ComingAndGoingObeys(r: Room, e: Event, entropy: Entropy)
    requires r.players.Keys !! r.spectators.Keys && IsAttendance(e.kind) && Handled(r, e, entropy).Accepted?
    ensures SeatsFollow(r, e, entropy, Handled(r, e, entropy).room)
  {
    hide SeatsFollow, AfterJoin, AfterLeave, AfterDisconnect, AfterReady, AfterPresence;
    if e.kind.Join? {
      JoinObeys(r, e, entropy);
    } else if e.kind.Leave? {
      LeaveObeys(r, e, entropy);
    } else if e.kind.Disconnect? {
      DisconnectObeys(r, e, entropy);
    } else if e.kind.Ready? {
      ReadyObeys(r, e, entropy);
    } else {
      PresenceObeys(r, e, entropy);
    }
  }

  lemma TransferMovesNobody(r: Room, p: Id, target: Id, at: int)
    requires AfterTransferOwner(r, p, target, at).Accepted?
    ensures var s := AfterTransferOwner(r, p, target, at).room; s.players == r.players && s.spectators == r.spectators
  {
  }

  lemma LimitMovesNobody(r: Room, p: Id, limit: int, at: int)
    requires AfterSetPlayerLimit(r, p, limit, at).Accepted?
    ensures var s := AfterSetPlayerLimit(r, p, limit, at).room; s.players == r.players && s.spectators == r.spectators
  {
  }

  lemma UntouchedObeys(r: Room, e: Event, entropy: Entropy)
    requires LeavesSeats(e.kind) && Handled(r, e, entropy).Accepted?
    ensures SeatsFollow(r, e, entropy, Handled(r, e, entropy).room)
  {
    hide SeatsFollow, AfterJoin, AfterLeave, AfterDisconnect, AfterStartGame, AfterReady, AfterPresence, AfterNightAction, AfterNightPass,
      AfterStartVote, AfterVote, AfterShoot, AfterKick, AfterPhaseTimeout, AfterSetGameSettings, AfterSetGamePreset, AfterReturnToWaiting, AfterChat,
      AfterTransferOwner, AfterSetPlayerLimit;
    if e.kind.Chat? {
      ChatTouchesPlayer(r, e.player, e.kind.message, e.at);
    } else if e.kind.TransferOwner? {
      TransferMovesNobody(r, e.player, e.kind.target, e.at);
    } else if e.kind.SetPlayerLimit? {
      LimitMovesNobody(r, e.player, e.kind.maxPlayers, e.at);
    }
    NobodyMoves(r, e, entropy, Handled(r, e, entropy).room);
  }

  lemma RulesObey(r: Room, e: Event, entropy: Entropy)
    requires SetsRules(e.kind) && Handled(r, e, entropy).Accepted?
    ensures SeatsFollow(r, e, entropy, Handled(r, e, entropy).room)
  {
    hide SeatsFollow, AfterSettings, Validate, ValidateForStart, GameSettingsForPreset;
    if e.kind.SetGameSettings? {
      var settings := e.kind.settings.(preset := Custom);
      SettingsObey(r, e, entropy, settings, Validate(settings, r.maxPlayers).value);
    } else {
      var settings := GameSettingsForPreset(e.kind.preset, r.base).value;
      SettingsObey(r, e, entropy, settings, ValidateForStart(settings, r.maxPlayers, r.base).value);
    }
  }

  lemma MannersObey(r: Room, e: Event, entropy: Entropy)
    requires r.players.Keys !! r.spectators.Keys && !IsPlay(e.kind) && Handled(r, e, entropy).Accepted?
    ensures SeatsFollow(r, e, entropy, Handled(r, e, entropy).room)
  {
    hide SeatsFollow, AfterStartGame, AfterKick, WaitingAgain, AfterJoin, AfterLeave, AfterDisconnect, AfterReady, AfterPresence, AfterNightAction,
      AfterNightPass, AfterStartVote, AfterVote, AfterShoot, AfterPhaseTimeout, AfterSetGameSettings, AfterSetGamePreset, AfterChat,
      AfterTransferOwner, AfterSetPlayerLimit;
    if IsAttendance(e.kind) {
      hide Handled;
      ComingAndGoingObeys(r, e, entropy);
    } else if LeavesSeats(e.kind) {
      hide Handled;
      UntouchedObeys(r, e, entropy);
    } else if SetsRules(e.kind) {
      hide Handled;
      RulesObey(r, e, entropy);
    } else if e.kind.StartGame? {
      StartObeys(r, e, entropy);
    } else if e.kind.KickParticipant? {
      KickObeys(r, e, entropy);
    } else if e.kind.ReturnToWaiting? {
      ReturnObeys(r, e, entropy);
      StampObeys(r, e, entropy, WaitingAgain(r, e.at), Handled(r, e, entropy).room);
    }
  }

  lemma HandledObeys(r: Room, e: Event, entropy: Entropy)
    requires Inv(r) && Handled(r, e, entropy).Accepted?
    ensures SeatsFollow(r, e, entropy, Handled(r, e, entropy).room)
  {
    SeatsAreApart(r);
    if IsPlay(e.kind) {
      hide Inv, SeatsFollow, Handled;
      PlayObeys(r, e, entropy);
    } else {
      MannersObey(r, e, entropy);
    }
  }

  // ---- Rules and owner, event by event ------------------------------------------------------------

  ghost predicate RoomFollows(r: Room, e: Event, s: Room) {
    RulesFollow(r, e, s) && s.owner == OwnerAfter(r, e, s)
  }

  lemma ConnectedOwnerSucceeds(owner: Id, players: Players)
    ensures ConnectedOwner(owner, players) == Successor(owner, players)
  {
    hide Least;
  }

  lemma PlayKeepsRules(r: Room, e: Event, entropy: Entropy)
    requires Inv(r) && IsPlay(e.kind) && Handled(r, e, entropy).Accepted?
    ensures RoomFollows(r, e, Handled(r, e, entropy).room)
  {
    hide Inv, Handled, Successor, Least;
    PlayNeedsAnActiveGame(r, e, entropy);
    PlayKeepsEveryone(r, e, entropy);
    PlayIsStamped(r, e, entropy);
  }

  lemma PlayIsStamped(r: Room, e: Event, entropy: Entropy)
    requires IsPlay(e.kind) && Handled(r, e, entropy).Accepted?
    ensures Handled(r, e, entropy).room.updatedAt == e.at
  {
    hide NightMaybeResolved, VoteMaybeResolved, ShotResolved, TimedOut, VotingOpened, AfterJoin, AfterLeave, AfterDisconnect, AfterStartGame, AfterReady,
      AfterChat, AfterPresence, AfterTransferOwner, AfterKick, AfterSetPlayerLimit, AfterSetGameSettings, AfterSetGamePreset, AfterReturnToWaiting;
  }

  lemma JoinFollowsRules(r: Room, e: Event, entropy: Entropy)
    requires e.kind.Join? && AfterJoin(r, e.player, e.kind, e.at, entropy).Accepted?
    ensures RoomFollows(r, e, AfterJoin(r, e.player, e.kind, e.at, entropy).room)
  {
    hide ConnectedOwner, Successor, Least;
    if e.player in r.players {
      ConnectedOwnerSucceeds(r.owner, Rejoined(r, e.player, e.kind.name).players);
    }
  }

  lemma DisconnectFollowsRules(r: Room, e: Event)
    requires (e.kind.Disconnect? || (e.kind.Leave? && r.phase != Waiting)) && AfterDisconnect(r, e.player, e.at).Accepted?
    ensures RoomFollows(r, e, AfterDisconnect(r, e.player, e.at).room)
  {
    hide ConnectedOwner, Successor, Least;
    if e.player in r.players {
      ConnectedOwnerSucceeds(e.player, PlayerDropped(r, e.player).players);
    }
  }

  lemma LeaveFollowsRules(r: Room, e: Event)
    requires e.kind.Leave? && AfterLeave(r, e.player, e.at).Accepted?
    ensures RoomFollows(r, e, AfterLeave(r, e.player, e.at).room)
  {
    hide AfterDisconnect, Successor, Least;
    if r.phase != Waiting {
      DisconnectFollowsRules(r, e);
    } else {
      NobodyDisconnects(r, e);
    }
  }

  lemma NobodyDisconnects(r: Room, e: Event)
    ensures AfterDisconnect(r, e.player, e.at).Accepted? ==> e.player in r.players || e.player in r.spectators
  {
    hide ConnectedOwner;
  }

  lemma ReturnFollowsRules(r: Room, e: Event)
    requires e.kind.ReturnToWaiting?
    ensures RoomFollows(r, e, WaitingAgain(r, e.at).(updatedAt := e.at))
  {
    hide ConnectedOwner, Successor, Least, SeatsReset;
    ConnectedOwnerSucceeds(r.owner, SeatsReset(r.players));
  }

  lemma SettingsFollowRules(r: Room, e: Event, settings: GameSettings, durations: PhaseDurations)
    requires SetsRules(e.kind)
    requires e.kind.SetGameSettings? ==> settings == e.kind.settings.(preset := Custom)
    requires e.kind.SetGamePreset? ==> GameSettingsForPreset(e.kind.preset, r.base) == Ok(settings)
    ensures RoomFollows(r, e, AfterSettings(r, settings, durations, e.at).room)
  {
    hide GameSettingsForPreset, WithoutReadiness;
  }

  lemma StartFollowsRules(r: Room, e: Event, entropy: Entropy)
    requires e.kind.StartGame? && AfterStartGame(r, e.player, e.at, entropy).Accepted?
    ensures RoomFollows(r, e, AfterStartGame(r, e.player, e.at, entropy).room)
  {
    hide StartRefusal, ShuffledDeck, ValidateForStart, Dealt, Successor;
  }

  lemma ReadyFollowsRules(r: Room, e: Event)
    requires e.kind.Ready? && AfterReady(r, e.player, e.kind.ready, e.at).Accepted?
    ensures RoomFollows(r, e, AfterReady(r, e.player, e.kind.ready, e.at).room)
  {
    hide Successor;
  }

  lemma PresenceFollowsRules(r: Room, e: Event)
    requires e.kind.Presence? && AfterPresence(r, e.player, e.kind.afk, e.at).Accepted?
    ensures RoomFollows(r, e, AfterPresence(r, e.player, e.kind.afk, e.at).room)
  {
    hide Successor;
  }

  lemma KickFollowsRules(r: Room, e: Event)
    requires e.kind.KickParticipant? && AfterKick(r, e.player, e.kind.target, e.at).Accepted?
    ensures RoomFollows(r, e, AfterKick(r, e.player, e.kind.target, e.at).room)
  {
    hide Successor, VotesWithout;
  }

  lemma TalkFollowsRules(r: Room, e: Event, entropy: Entropy)
    requires LeavesSeats(e.kind) && Handled(r, e, entropy).Accepted?
    ensures RoomFollows(r, e, Handled(r, e, entropy).room)
  {
    hide Successor, AfterChat, AfterJoin, AfterLeave, AfterDisconnect, AfterStartGame, AfterReady, AfterPresence, AfterNightAction, AfterNightPass,
      AfterStartVote, AfterVote, AfterShoot, AfterKick, AfterSetGameSettings, AfterSetGamePreset, AfterReturnToWaiting, AfterPhaseTimeout;
    if e.kind.Chat? {
      ChatTouchesPlayer(r, e.player, e.kind.message, e.at);
    }
  }

  lemma HandledFollows(r: Room, e: Event, entropy: Entropy)
    requires Inv(r) && Handled(r, e, entropy).Accepted?
    ensures RoomFollows(r, e, Handled(r, e, entropy).room)
  {
    hide RoomFollows, Inv, AfterJoin, AfterLeave, AfterDisconnect, AfterStartGame, AfterReady, AfterPresence, AfterNightAction, AfterNightPass,
      AfterStartVote, AfterVote, AfterShoot, AfterKick, WaitingAgain, AfterPhaseTimeout, AfterSettings, Validate, ValidateForStart, GameSettingsForPreset,
      AfterChat, AfterTransferOwner, AfterSetPlayerLimit;
    match e.kind
    case Join(_, _, _) => JoinFollowsRules(r, e, entropy);
    case Leave => LeaveFollowsRules(r, e);
    case Disconnect => DisconnectFollowsRules(r, e);
    case Ready(_) => ReadyFollowsRules(r, e);
    case StartGame => StartFollowsRules(r, e, entropy);
    case Presence(_) => PresenceFollowsRules(r, e);
    case KickParticipant(_) => KickFollowsRules(r, e);
    case SetGameSettings(settings) =>
      SettingsFollowRules(r, e, settings.(preset := Custom), Validate(settings.(preset := Custom), r.maxPlayers).value);
    case SetGamePreset(preset) =>
      var settings := GameSettingsForPreset(preset, r.base).value;
      SettingsFollowRules(r, e, settings, ValidateForStart(settings, r.maxPlayers, r.base).value);
    case ReturnToWaiting => ReturnFollowsRules(r, e);
    case Chat(_) => TalkFollowsRules(r, e, entropy);
    case TransferOwner(_) => TalkFollowsRules(r, e, entropy);
    case SetRoomLocked(_) => TalkFollowsRules(r, e, entropy);
    case SetPlayerLimit(_) => TalkFollowsRules(r, e, entropy);
    case NightActionOn(_) => PlayKeepsRules(r, e, entropy);
    case NightPass => PlayKeepsRules(r, e, entropy);
    case StartVote => PlayKeepsRules(r, e, entropy);
    case Vote(_) => PlayKeepsRules(r, e, entropy);
    case Shoot(_) => PlayKeepsRules(r, e, entropy);
    case PhaseTimeout => PlayKeepsRules(r, e, entropy);
  }

  lemma SequencedSeat(r: Room, e: Event, entropy: Entropy, s: Room, n: nat, p: Id)
    requires PlayerFollows(r, e, entropy, s, p) && SpectatorFollows(r, e, entropy, s, p)
    ensures PlayerFollows(r, e, entropy, WithSequence(s, e.player, n), p) && SpectatorFollows(r, e, entropy, WithSequence(s, e.player, n), p)
  {
    var t, q := WithSequence(s, e.player, n), e.player;
    if q in s.players {
      assert t.players == s.players[q := s.players[q].(lastSequence := n)] && t.spectators == s.spectators;
    } else if q in s.spectators {
      assert t.spectators == s.spectators[q := s.spectators[q].(lastSequence := n)] && t.players == s.players;
    } else {
      assert t == s;
    }
    hide WithSequence;
  }

  lemma SequencedOwner(s: Room, q: Id, n: nat)
    ensures var t := WithSequence(s, q, n);
      && t == s.(players := t.players, spectators := t.spectators) && t.players.Keys == s.players.Keys
      && Connected(t.players) == Connected(s.players) && (t.players == map[] <==> s.players == map[])
      && forall p :: p in s.players ==> t.players[p].connected == s.players[p].connected
  {
    var t := WithSequence(s, q, n);
    if q in s.players {
      assert t.players == s.players[q := s.players[q].(lastSequence := n)];
    } else {
      assert t.players == s.players;
    }
    assert t.players == map[] <==> t.players.Keys == {};
    assert s.players == map[] <==> s.players.Keys == {};
  }

  // Every accepted event obeys these laws.
  lemma EventsObeyLaws(r: Room, e: Event, entropy: Entropy)
    requires Inv(r) && Step(r, e, entropy).Accepted?
    ensures SeatsFollow(r, e, entropy, Step(r, e, entropy).room) && RoomFollows(r, e, Step(r, e, entropy).room)
  {
    hide Inv, Handled, PlayerFollows, SpectatorFollows, Least, WithSequence, IsDuplicate;
    HandledObeys(r, e, entropy);
    HandledFollows(r, e, entropy);
    var s := Handled(r, e, entropy).room;
    forall p ensures var t := WithSequence(s, e.player, e.sequence);
      PlayerFollows(r, e, entropy, t, p) && SpectatorFollows(r, e, entropy, t, p)
    {
      SequencedSeat(r, e, entropy, s, e.sequence, p);
    }
    SequencedOwner(s, e.player, e.sequence);
  }
}
