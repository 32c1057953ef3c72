// Who is shown as not connected: exactly those seated who have left or been dropped since they last
// joined, over any run of the actor's commands. A subscription says nothing about it
// (internal/room/actor.go, internal/ws/handler.go).

module Attendance {
  import opened Rules
  import opened Settings
  import opened RoomModel
  import opened RoomInvariant
  import opened RoomSteps
  import opened RoomRuns
  import opened Seats
  import opened RoomState
  import opened Views
  import opened Streams
  import opened Actor

  // Seated, but shown as not connected.
  predicate IsAway(r: Room, p: Id) {
    && IsSeated(r, p)
    && (p in r.players ==> !r.players[p].connected)
    && (p in r.spectators ==> !r.spectators[p].connected)
  }

  predicate Joins(e: Event, p: Id) {
    e.player == p && e.kind.Join?
  }

  predicate Departs(e: Event, p: Id) {
    e.player == p && (e.kind.Disconnect? || e.kind.Leave?)
  }

  // ---- One event ------------------------------------------------------------------------------

  // The same participants, connected or not alike.
  ghost predicate SameLinks(r: Room, s: Room) {
    && s.players.Keys == r.players.Keys && s.spectators.Keys == r.spectators.Keys
    && (forall p :: p in r.players ==> s.players[p].connected == r.players[p].connected)
    && (forall p :: p in r.spectators ==> s.spectators[p].connected == r.spectators[p].connected)
  }

  lemma SameLinksSameAway(r: Room, s: Room, q: Id)
    requires SameLinks(r, s)
    ensures IsAway(r, q) <==> IsAway(s, q)
    ensures IsSeated(r, q) <==> IsSeated(s, q)
  {
  }

  // What the event makes of this participant's being away; and only joining gives a seat.
  ghost predicate AwayFollows(r: Room, s: Room, e: Event, q: Id) {
    && (IsAway(s, q) <==> IsSeated(s, q) && (Departs(e, q) || (IsAway(r, q) && !Joins(e, q))))
    && (IsSeated(s, q) ==> IsSeated(r, q) || Joins(e, q))
    && (Joins(e, q) ==> IsSeated(s, q))
  }

  lemma LinksKept(r: Room, s: Room, e: Event, q: Id)
    requires SameLinks(r, s) && !Joins(e, q) && !Departs(e, q)
    ensures AwayFollows(r, s, e, q)
  {
    SameLinksSameAway(r, s, q);
    hide SameLinks;
  }

  lemma PlayKeepsLinks(r: Room, e: Event, entropy: Entropy)
    requires Inv(r) && IsPlay(e.kind) && Handled(r, e, entropy).Accepted?
    ensures SameLinks(r, Handled(r, e, entropy).room)
  {
    hide Inv, Handled;
    PlayNeedsAnActiveGame(r, e, entropy);
    PlayKeepsEveryone(r, e, entropy);
  }

  lemma OnePlayerTouched(r: Room, s: Room, p: Id, x: Player)
    requires p in r.players && x.connected == r.players[p].connected && s.players == r.players[p := x] && s.spectators == r.spectators
    ensures SameLinks(r, s)
  {
  }

  lemma OneSpectatorTouched(r: Room, s: Room, p: Id, x: Spectator)
    requires p in r.spectators && x.connected == r.spectators[p].connected && s.spectators == r.spectators[p := x] && s.players == r.players
    ensures SameLinks(r, s)
  {
  }

  lemma NobodyTouched(r: Room, s: Room)
    requires s.players == r.players && s.spectators == r.spectators
    ensures SameLinks(r, s)
  {
  }

  lemma ReadyKeepsLinks(r: Room, p: Id, ready: bool, at: int)
    requires AfterReady(r, p, ready, at).Accepted?
    ensures SameLinks(r, AfterReady(r, p, ready, at).room)
  {
    hide SameLinks;
    OnePlayerTouched(r, AfterReady(r, p, ready, at).room, p, r.players[p].(ready := ready));
  }

  lemma PresenceKeepsLinks(r: Room, p: Id, afk: bool, at: int)
    requires AfterPresence(r, p, afk, at).Accepted?
    ensures SameLinks(r, AfterPresence(r, p, afk, at).room)
  {
    hide SameLinks;
    if p in r.players {
      OnePlayerTouched(r, AfterPresence(r, p, afk, at).room, p, r.players[p].(afk := afk));
    } else {
      OneSpectatorTouched(r, AfterPresence(r, p, afk, at).room, p, r.spectators[p].(afk := afk));
    }
  }

  lemma TouchKeepsLinks(r: Room, e: Event, entropy: Entropy)
    requires TouchesOneParticipant(e.kind) && Handled(r, e, entropy).Accepted?
    ensures SameLinks(r, Handled(r, e, entropy).room)
  {
    hide SameLinks, AfterReady, AfterPresence, AfterChat, AfterJoin, AfterLeave, AfterDisconnect, AfterStartGame, AfterNightAction, AfterNightPass,
      AfterStartVote, AfterVote, AfterShoot, AfterKick, AfterSetPlayerLimit, AfterSetGameSettings, AfterSetGamePreset, AfterReturnToWaiting, AfterPhaseTimeout;
    if e.kind.Ready? {
      ReadyKeepsLinks(r, e.player, e.kind.ready, e.at);
    } else if e.kind.Presence? {
      PresenceKeepsLinks(r, e.player, e.kind.afk, e.at);
    } else {
      if e.kind.Chat? {
        ChatTouchesPlayer(r, e.player, e.kind.message, e.at);
      }
      NobodyTouched(r, Handled(r, e, entropy).room);
    }
  }

  lemma SettingsKeepLinks(r: Room, settings: GameSettings, durations: PhaseDurations, at: int)
    ensures SameLinks(r, AfterSettings(r, settings, durations, at).room)
  {
  }

  lemma RulesKeepLinks(r: Room, e: Event, entropy: Entropy)
    requires e.kind.SetPlayerLimit? || e.kind.SetGameSettings? || e.kind.SetGamePreset?
    requires Handled(r, e, entropy).Accepted?
    ensures SameLinks(r, Handled(r, e, entropy).room)
  {
    hide SameLinks, AfterSettings, Validate, ValidateForStart, GameSettingsForPreset, AfterJoin, AfterLeave, AfterDisconnect, AfterStartGame, AfterReady,
      AfterChat, AfterPresence, AfterNightAction, AfterNightPass, AfterStartVote, AfterVote, AfterShoot, AfterKick, AfterReturnToWaiting, AfterPhaseTimeout;
    match e.kind
    case SetGameSettings(settings) =>
      SettingsKeepLinks(r, settings.(preset := Custom), Validate(settings.(preset := Custom), r.maxPlayers).value, e.at);
    case SetGamePreset(preset) =>
      var settings := GameSettingsForPreset(preset, r.base).value;
      SettingsKeepLinks(r, settings, ValidateForStart(settings, r.maxPlayers, r.base).value, e.at);
    case SetPlayerLimit(limit) => LimitKeepsLinks(r, limit, e.at);
  }

  lemma LimitKeepsLinks(r: Room, limit: int, at: int)
    ensures SameLinks(r, r.(maxPlayers := limit, updatedAt := at))
  {
  }

  lemma StartKeepsLinks(r: Room, p: Id, at: int, entropy: Entropy)
    requires AfterStartGame(r, p, at, entropy).Accepted?
    ensures SameLinks(r, AfterStartGame(r, p, at, entropy).room)
  {
    hide StartRefusal, ShuffledDeck, ValidateForStart, Sorted, IndexOf;
  }

  lemma KickFollows(r: Room, e: Event, target: Id, q: Id)
    requires AfterKick(r, e.player, target, e.at).Accepted? && e.kind == KickParticipant(target) && r.players.Keys !! r.spectators.Keys
    ensures AwayFollows(r, AfterKick(r, e.player, target, e.at).room, e, q)
  {
    hide ConnectedOwner;
  }

  lemma ReturnFollows(r: Room, e: Event, q: Id)
    requires e.kind.ReturnToWaiting? && r.players.Keys !! r.spectators.Keys
    ensures AwayFollows(r, WaitingAgain(r, e.at), e, q)
  {
  }

  lemma PlayerJoinFollows(r: Room, s: Room, e: Event, x: Player, q: Id)
    requires e.kind.Join? && x.connected && e.player !in r.spectators && s.players == r.players[e.player := x] && s.spectators == r.spectators
    ensures AwayFollows(r, s, e, q)
  {
  }

  lemma SpectatorJoinFollows(r: Room, s: Room, e: Event, x: Spectator, q: Id)
    requires e.kind.Join? && x.connected && e.player !in r.players && s.spectators == r.spectators[e.player := x] && s.players == r.players
    ensures AwayFollows(r, s, e, q)
  {
  }

  lemma JoinFollows(r: Room, e: Event, entropy: Entropy, q: Id)
    requires e.kind.Join? && r.players.Keys !! r.spectators.Keys && AfterJoin(r, e.player, e.kind, e.at, entropy).Accepted?
    ensures AwayFollows(r, AfterJoin(r, e.player, e.kind, e.at, entropy).room, e, q)
  {
    hide AwayFollows, ConnectedOwner;
    var p, s := e.player, AfterJoin(r, e.player, e.kind, e.at, entropy).room;
    if p in r.players || (p !in r.spectators && !e.kind.spectator) {
      PlayerJoinFollows(r, s, e, s.players[p], q);
    } else {
      SpectatorJoinFollows(r, s, e, s.spectators[p], q);
    }
  }

  lemma DisconnectFollows(r: Room, e: Event, q: Id)
    requires (e.kind.Disconnect? || e.kind.Leave?) && r.players.Keys !! r.spectators.Keys && AfterDisconnect(r, e.player, e.at).Accepted?
    ensures AwayFollows(r, AfterDisconnect(r, e.player, e.at).room, e, q)
  {
    hide AfterDisconnect, Step, AfterDrop;
    UnsequencedDisconnect(r, e.player, e.at);
    DisconnectingDrops(r, Drop(e.player, e.at));
    AfterDropIs(r, Drop(e.player, e.at));
  }

  lemma LeaveFollows(r: Room, e: Event, q: Id)
    requires e.kind.Leave? && r.players.Keys !! r.spectators.Keys && AfterLeave(r, e.player, e.at).Accepted?
    ensures AwayFollows(r, AfterLeave(r, e.player, e.at).room, e, q)
  {
    hide AfterDisconnect, Least;
    if r.phase != Waiting || !IsSeated(r, e.player) {
      DisconnectFollows(r, e, q);
      hide AwayFollows;
    }
  }

  lemma HandledFollows(r: Room, e: Event, entropy: Entropy, q: Id)
    requires Inv(r) && Handled(r, e, entropy).Accepted?
    ensures AwayFollows(r, Handled(r, e, entropy).room, e, q)
  {
    hide Inv, AfterJoin, AfterLeave, AfterDisconnect, AfterStartGame, AfterKick, AfterSetPlayerLimit, AfterSetGameSettings,
      AfterSetGamePreset, AfterReady, AfterPresence, AfterChat, AfterNightAction, AfterNightPass, AfterVote, AfterShoot,
      AfterPhaseTimeout, AfterStartVote, AfterTransferOwner, WaitingAgain, AwayFollows, SameLinks;
    SeatsAreApart(r);
    var s := Handled(r, e, entropy).room;
    match e.kind
    case Join(_, _, _) => JoinFollows(r, e, entropy, q);
    case Leave => LeaveFollows(r, e, q);
    case Disconnect => DisconnectFollows(r, e, q);
    case KickParticipant(target) => KickFollows(r, e, target, q);
    case ReturnToWaiting =>
      ReturnFollows(r, e, q);
      StampFollows(r, WaitingAgain(r, e.at), e, e.at, q);
    case StartGame =>
      StartKeepsLinks(r, e.player, e.at, entropy);
      LinksKept(r, s, e, q);
    case _ =>
      if IsPlay(e.kind) {
        PlayKeepsLinks(r, e, entropy);
      } else if TouchesOneParticipant(e.kind) {
        TouchKeepsLinks(r, e, entropy);
      } else {
        RulesKeepLinks(r, e, entropy);
      }
      LinksKept(r, s, e, q);
  }

  lemma StampFollows(r: Room, s: Room, e: Event, at: int, q: Id)
    requires AwayFollows(r, s, e, q)
    ensures AwayFollows(r, s.(updatedAt := at), e, q)
  {
  }

  lemma SequenceKeepsLinks(r: Room, p: Id, n: nat)
    ensures SameLinks(r, WithSequence(r, p, n))
  {
    hide SameLinks;
    if p in r.players {
      OnePlayerTouched(r, WithSequence(r, p, n), p, r.players[p].(lastSequence := n));
    } else if p in r.spectators {
      OneSpectatorTouched(r, WithSequence(r, p, n), p, r.spectators[p].(lastSequence := n));
    } else {
      NobodyTouched(r, r);
    }
  }

  // After an accepted event, one who is seated is away exactly if it was their departure, or they were away
  // and it was not their joining.
  lemma AwayExactly(r: Room, e: Event, entropy: Entropy, q: Id)
    requires Inv(r) && Step(r, e, entropy).Accepted?
    ensures AwayFollows(r, Step(r, e, entropy).room, e, q)
  {
    hide Inv, Handled, SameLinks, IsAway;
    HandledFollows(r, e, entropy, q);
    var s := Handled(r, e, entropy).room;
    SequenceKeepsLinks(s, e.player, e.sequence);
    SameLinksSameAway(s, WithSequence(s, e.player, e.sequence), q);
  }

  // ---- One command ----------------------------------------------------------------------------

  // What the actor's loop takes from its inbox and timer, and what readers do in between.
  datatype Command =
    | Dispatch(from: Option<SubId>, event: Event, entropy: Entropy)
    | Enter(player: Id, id: SubId)
    | Quit(id: SubId, permanent: bool, at: int)
    | Expire(at: int)
    | Read(id: SubId)

  // An actor as it stands between two commands.
  datatype Scene = Scene(channels: Channels, room: Room)

  ghost predicate IsProper(scene: Scene) {
    Inv(scene.room) && IsSane(scene.channels) && OneEach(scene.channels.subscribers)
  }

  // The event a command puts to the room, if it gets that far.
  function EventOf(cmd: Command, c: Channels): Option<Input> {
    match cmd
    case Dispatch(from, e, entropy) => if IsStale(c.subscribers, from, e.player) then None else Some(Input(e, entropy))
    case Quit(id, permanent, at) =>
      if id in c.subscribers then Some(Input(Departure(c.subscribers[id], permanent, at), NO_ENTROPY)) else None
    case Expire(at) => Some(Input(Event(NO_ID, 0, PhaseTimeout, at), NO_ENTROPY))
    case _ => None
  }

  ghost function OutcomeOf(cmd: Command, scene: Scene): Outcome {
    match EventOf(cmd, scene.channels)
    case None => Rejected(UnknownEvent)
    case Some(input) => Step(scene.room, input.event, input.entropy)
  }

  // The channels before anything is broadcast.
  ghost function ChannelsFor(cmd: Command, scene: Scene): Channels {
    match cmd
    case Dispatch(_, e, _) => if OutcomeOf(cmd, scene).Accepted? then AfterKicking(scene.channels, e.kind) else scene.channels
    case Quit(id, _, _) => if id in scene.channels.subscribers then GivenUp(scene.channels, id) else scene.channels
    case _ => scene.channels
  }

  ghost predicate IsTold(before: Channels, after: Channels, room: Room, reply: Reply, left: Room) {
    exists drops, news :: IsBroadcast(before, after, room, EnvelopeOf(reply, room), drops, news, left)
  }

  // What a command makes of the actor.
  ghost predicate Did(cmd: Command, before: Scene, after: Scene) {
    match cmd
    case Enter(p, id) =>
      && id !in before.channels.queues && after.room == before.room
      && after.channels == Opened(AllEnded(before.channels, SubscriptionsOf(before.channels.subscribers, p), Replaced),
                                  id, p, StateMessage(SnapshotOf(before.room), PrivateViewOf(before.room, p)))
    case Read(_) =>
      after.room == before.room && after.channels == before.channels.(queues := after.channels.queues)
    case _ =>
      match OutcomeOf(cmd, before)
      case Rejected(_) => after == Scene(ChannelsFor(cmd, before), before.room)
      case Accepted(room, reply) => IsTold(ChannelsFor(cmd, before), after.channels, room, reply, after.room)
  }

  lemma AcceptedIsTold(cmd: Command, before: Scene, after: Scene)
    requires Did(cmd, before, after) && OutcomeOf(cmd, before).Accepted?
    ensures IsTold(ChannelsFor(cmd, before), after.channels, OutcomeOf(cmd, before).room, OutcomeOf(cmd, before).reply, after.room)
  {
    hide IsTold, Step, ChannelsFor, AllEnded, SubscriptionsOf, Opened;
  }

  // The command's event is this participant's joining, or departure, and the room accepts it.
  ghost predicate HasJoined(cmd: Command, before: Scene, p: Id) {
    OutcomeOf(cmd, before).Accepted? && Joins(EventOf(cmd, before.channels).value.event, p)
  }

  ghost predicate HasDeparted(cmd: Command, before: Scene, p: Id) {
    OutcomeOf(cmd, before).Accepted? && Departs(EventOf(cmd, before.channels).value.event, p)
  }

  // The participant could not keep up with what the command had everyone told.
  ghost predicate WasDropped(cmd: Command, before: Scene, after: Scene, p: Id) {
    OutcomeOf(cmd, before).Accepted? && p in Lost(ChannelsFor(cmd, before).subscribers, after.channels.subscribers)
  }

  ghost predicate HasGone(cmd: Command, before: Scene, after: Scene, p: Id) {
    HasDeparted(cmd, before, p) || WasDropped(cmd, before, after, p)
  }

  lemma DropsAreThose(drops: seq<Drop>, lost: set<Id>)
    requires DropsAre(drops, lost)
    ensures PlayersOf(drops) == lost
  {
    forall p | p in lost ensures p in PlayersOf(drops) {
      var i :| 0 <= i < |drops| && drops[i].player == p;
      assert drops[i] in drops;
    }
  }

  lemma DropsFollow(r: Room, drops: seq<Drop>, q: Id)
    requires r.players.Keys !! r.spectators.Keys
    ensures var s := AfterDrops(r, drops);
      (IsSeated(s, q) <==> IsSeated(r, q)) && (IsAway(s, q) <==> IsSeated(r, q) && (IsAway(r, q) || q in PlayersOf(drops)))
  {
    DropsDisconnectExactly(r, drops);
    hide AfterDrops;
  }

  // One who is seated after a command is away exactly if they have departed or been dropped by it, or were
  // away before and have not joined by it.
  lemma CommandFollows(cmd: Command, before: Scene, after: Scene, q: Id)
    requires IsProper(before) && Did(cmd, before, after)
    ensures IsAway(after.room, q) <==>
      IsSeated(after.room, q) && (HasGone(cmd, before, after, q) || (IsAway(before.room, q) && !HasJoined(cmd, before, q)))
    ensures IsSeated(after.room, q) ==> IsSeated(before.room, q) || HasJoined(cmd, before, q)
  {
    hide Inv, IsSane, OneEach, Step, IsAway, Lost, AllEnded, AllServed, News, AfterDrops, SnapshotOf, PrivateViewOf, ChannelsFor;
    match OutcomeOf(cmd, before)
    case Rejected(_) => AwayIsSeated(before.room, q);
    case Accepted(room, reply) =>
      var input := EventOf(cmd, before.channels).value;
      var drops, news :| IsBroadcast(ChannelsFor(cmd, before), after.channels, room, EnvelopeOf(reply, room), drops, news, after.room);
      AwayExactly(before.room, input.event, input.entropy, q);
      StepKeepsInv(before.room, input.event, input.entropy);
      SeatsAreApart(room);
      DropsFollow(room, drops, q);
      DropsAreThose(drops, Lost(ChannelsFor(cmd, before).subscribers, after.channels.subscribers));
      hide DropsAre, EnvelopeOf, IsPosted;
  }

  lemma AwayIsSeated(r: Room, q: Id)
    ensures IsAway(r, q) ==> IsSeated(r, q)
  {
  }

  // ---- Subscribers shown as away --------------------------------------------------------------

  // Whoever is subscribed and seated is connected.
  ghost predicate IsAttended(scene: Scene) {
    forall id :: id in scene.channels.subscribers ==> !IsAway(scene.room, scene.channels.subscribers[id])
  }

  // One who is away subscribes, or has the room told of a departure while keeping a subscription.
  ghost predicate LosesOne(cmd: Command, before: Scene, after: Scene) {
    match cmd
    case Enter(p, _) => IsAway(before.room, p)
    case Dispatch(_, e, _) =>
      && HasDeparted(cmd, before, e.player) && (e.kind.Disconnect? || before.room.phase != Waiting)
      && e.player in after.channels.subscribers.Values
    case _ => false
  }

  lemma DisconnectKeepsSeat(r: Room, p: Id, at: int)
    requires AfterDisconnect(r, p, at).Accepted?
    ensures IsSeated(AfterDisconnect(r, p, at).room, p)
  {
    hide ConnectedOwner;
  }

  lemma LeaveKeepsSeat(r: Room, p: Id, at: int)
    requires AfterLeave(r, p, at).Accepted? && r.players.Keys !! r.spectators.Keys
    ensures IsSeated(AfterLeave(r, p, at).room, p) <==> r.phase != Waiting
  {
    hide PlayerDropped, Least;
    if r.phase != Waiting {
      DisconnectKeepsSeat(r, p, at);
    }
  }

  // Leaving keeps the seat once the game has begun.
  lemma DepartureKeepsSeat(r: Room, e: Event, entropy: Entropy)
    requires Inv(r) && Step(r, e, entropy).Accepted? && Departs(e, e.player)
    ensures IsSeated(Step(r, e, entropy).room, e.player) <==> e.kind.Disconnect? || r.phase != Waiting
  {
    hide Inv, AfterLeave, AfterDisconnect, WithSequence, IsSeated;
    SeatsAreApart(r);
    if e.kind.Disconnect? {
      DisconnectKeepsSeat(r, e.player, e.at);
    } else {
      LeaveKeepsSeat(r, e.player, e.at);
    }
    SequenceKeepsLinks(Handled(r, e, entropy).room, e.player, e.sequence);
    SameLinksSameAway(Handled(r, e, entropy).room, WithSequence(Handled(r, e, entropy).room, e.player, e.sequence), e.player);
  }

  lemma ToldRemain(before: Channels, after: Channels, room: Room, reply: Reply, left: Room)
    requires IsTold(before, after, room, reply, left) && room.players.Keys !! room.spectators.Keys
    ensures Remains(before.subscribers, after.subscribers)
    ensures forall p :: IsSeated(left, p) <==> IsSeated(room, p)
  {
    hide Remains, DropsAre, AllServed, SnapshotOf, News, AfterDrops;
    var drops, news :| IsBroadcast(before, after, room, EnvelopeOf(reply, room), drops, news, left);
    ServedRemain(before, after, news);
    DropsDisconnectExactly(room, drops);
  }

  lemma KickedFewer(c: Channels, kind: EventKind)
    ensures Remains(c.subscribers, AfterKicking(c, kind).subscribers)
  {
  }

  // Whoever is subscribed after a command was before, unless the command is their subscribing.
  lemma SubscribedBefore(cmd: Command, before: Scene, after: Scene, id: SubId)
    requires IsProper(before) && Did(cmd, before, after) && id in after.channels.subscribers
    ensures (id in ChannelsFor(cmd, before).subscribers && ChannelsFor(cmd, before).subscribers[id] == after.channels.subscribers[id])
      || (cmd.Enter? && cmd.id == id && cmd.player == after.channels.subscribers[id])
    ensures Remains(before.channels.subscribers, ChannelsFor(cmd, before).subscribers)
  {
    hide Inv, IsSane, OneEach, Step, AfterKicking;
    if cmd.Dispatch? {
      KickedFewer(before.channels, cmd.event.kind);
    }
    match OutcomeOf(cmd, before)
    case Rejected(_) =>
    case Accepted(room, reply) =>
      var input := EventOf(cmd, before.channels).value;
      StepKeepsInv(before.room, input.event, input.entropy);
      SeatsAreApart(room);
      ToldRemain(ChannelsFor(cmd, before), after.channels, room, reply, after.room);
      hide IsTold;
  }

  // A subscriber who stays has not been dropped, nor given up this subscription.
  lemma StayersAreNotGone(cmd: Command, before: Scene, after: Scene, id: SubId)
    requires IsProper(before) && Did(cmd, before, after) && id in after.channels.subscribers
    requires !(cmd.Enter? && cmd.id == id)
    ensures var p := after.channels.subscribers[id];
      id in before.channels.subscribers && before.channels.subscribers[id] == p
      && (HasGone(cmd, before, after, p) <==> cmd.Dispatch? && HasDeparted(cmd, before, p))
  {
    hide Inv, IsSane, Step, AfterKicking, IsTold;
    SubscribedBefore(cmd, before, after, id);
    hide Did;
  }

  // Exactly when a command leaves somebody subscribed and seated but shown as not connected.
  lemma AttendanceIsLostExactly(cmd: Command, before: Scene, after: Scene)
    requires IsProper(before) && Did(cmd, before, after) && IsAttended(before)
    ensures IsAttended(after) <==> !LosesOne(cmd, before, after)
  {
    hide Inv, IsSane, OneEach, Step, IsAway, IsSeated, Did, HasGone, HasDeparted, HasJoined, OutcomeOf;
    forall id | id in after.channels.subscribers && !(cmd.Enter? && cmd.id == id)
      ensures id in before.channels.subscribers && !IsAway(before.room, before.channels.subscribers[id])
      ensures var p := after.channels.subscribers[id];
        IsAway(after.room, p) <==> IsSeated(after.room, p) && cmd.Dispatch? && HasDeparted(cmd, before, p)
    {
      StayersAreNotGone(cmd, before, after, id);
      CommandFollows(cmd, before, after, after.channels.subscribers[id]);
    }
    match cmd
    case Enter(p, id) => EnteredIs(cmd, before, after);
    case Dispatch(_, e, _) =>
      if HasDeparted(cmd, before, e.player) {
        DepartedKeepsSeat(cmd, before, after);
      }
      OnlyOneDeparts(cmd, before);
    case _ =>
  }

  lemma EnteredIs(cmd: Command, before: Scene, after: Scene)
    requires cmd.Enter? && Did(cmd, before, after)
    ensures after.room == before.room && cmd.id in after.channels.subscribers && after.channels.subscribers[cmd.id] == cmd.player
  {
    hide AllEnded;
  }

  lemma OnlyOneDeparts(cmd: Command, before: Scene)
    ensures forall p :: cmd.Dispatch? && HasDeparted(cmd, before, p) ==> p == cmd.event.player
  {
    hide Step;
  }

  lemma DepartedKeepsSeat(cmd: Command, before: Scene, after: Scene)
    requires IsProper(before) && Did(cmd, before, after) && cmd.Dispatch? && HasDeparted(cmd, before, cmd.event.player)
    ensures IsSeated(after.room, cmd.event.player) <==> cmd.event.kind.Disconnect? || before.room.phase != Waiting
  {
    hide Inv, IsSane, OneEach, Step, IsTold, IsSeated, AfterKicking;
    var e, room := cmd.event, OutcomeOf(cmd, before).room;
    StepKeepsInv(before.room, e, cmd.entropy);
    SeatsAreApart(room);
    DepartureKeepsSeat(before.room, e, cmd.entropy);
    ToldRemain(ChannelsFor(cmd, before), after.channels, room, OutcomeOf(cmd, before).reply, after.room);
  }

  // ---- Runs of commands -----------------------------------------------------------------------

  ghost predicate IsHistory(scenes: seq<Scene>, cmds: seq<Command>) {
    && |scenes| == |cmds| + 1
    && (forall i :: 0 <= i < |scenes| ==> IsProper(scenes[i]))
    && (forall i :: 0 <= i < |cmds| ==> Did(cmds[i], scenes[i], scenes[i + 1]))
  }

  // By the i-th command the participant was gone, and has not joined since.
  ghost predicate GoneSince(scenes: seq<Scene>, cmds: seq<Command>, q: Id, i: nat)
    requires i < |cmds| && |scenes| == |cmds| + 1
  {
    HasGone(cmds[i], scenes[i], scenes[i + 1], q) && forall j :: i < j < |cmds| ==> !HasJoined(cmds[j], scenes[j], q)
  }

  lemma HistoryBegins(scenes: seq<Scene>, cmds: seq<Command>)
    requires IsHistory(scenes, cmds) && cmds != []
    ensures IsHistory(scenes[..|cmds|], cmds[..|cmds| - 1])
  {
    hide IsProper, Did;
  }

  // Over any run of commands, one who is seated is shown as not connected exactly if they have departed or
  // been dropped and not joined since. Subscribing has no part in it.
  lemma {:induction false} AwayOverRuns(scenes: seq<Scene>, cmds: seq<Command>, q: Id)
    requires IsHistory(scenes, cmds) && !IsAway(scenes[0].room, q)
    ensures IsAway(scenes[|cmds|].room, q) <==>
      IsSeated(scenes[|cmds|].room, q) && exists i :: 0 <= i < |cmds| && GoneSince(scenes, cmds, q, i)
    decreases |cmds|
  {
    hide IsProper, Did, IsAway, IsSeated, HasGone, HasJoined;
    if cmds == [] {
    } else {
      var n := |cmds| - 1;
      var init, past := scenes[..|cmds|], cmds[..n];
      HistoryBegins(scenes, cmds);
      AwayOverRuns(init, past, q);
      CommandFollows(cmds[n], scenes[n], scenes[n + 1], q);
      forall i | 0 <= i < n ensures GoneSince(scenes, cmds, q, i) <==> GoneSince(init, past, q, i) && !HasJoined(cmds[n], scenes[n], q) {
        OneMoreCommand(scenes, cmds, q, i);
      }
      assert GoneSince(scenes, cmds, q, n) <==> HasGone(cmds[n], scenes[n], scenes[n + 1], q);
    }
  }

  lemma OneMoreCommand(scenes: seq<Scene>, cmds: seq<Command>, q: Id, i: nat)
    requires |scenes| == |cmds| + 1 && i < |cmds| - 1
    ensures var n := |cmds| - 1;
      GoneSince(scenes, cmds, q, i) <==> GoneSince(scenes[..|cmds|], cmds[..n], q, i) && !HasJoined(cmds[n], scenes[n], q)
  {
    hide HasGone, HasJoined;
    var n := |cmds| - 1;
    var init, past := scenes[..|cmds|], cmds[..n];
    if GoneSince(init, past, q, i) && !HasJoined(cmds[n], scenes[n], q) {
      forall j | i < j < |cmds| ensures !HasJoined(cmds[j], scenes[j], q) {
        assert j < n ==> cmds[j] == past[j] && scenes[j] == init[j];
      }
    }
    if GoneSince(scenes, cmds, q, i) {
      forall j | i < j < n ensures !HasJoined(past[j], init[j], q) {
        assert cmds[j] == past[j] && scenes[j] == init[j];
      }
    }
  }

  // Nobody who is subscribed is shown as away as long as no command of the run loses one.
  lemma {:induction false} AttendedOverRuns(scenes: seq<Scene>, cmds: seq<Command>)
    requires IsHistory(scenes, cmds) && IsAttended(scenes[0])
    requires forall i :: 0 <= i < |cmds| ==> !LosesOne(cmds[i], scenes[i], scenes[i + 1])
    ensures IsAttended(scenes[|cmds|])
    decreases |cmds|
  {
    hide IsProper, Did, IsAttended, LosesOne;
    if cmds != [] {
      var n := |cmds| - 1;
      HistoryBegins(scenes, cmds);
      AttendedOverRuns(scenes[..|cmds|], cmds[..n]);
      AttendanceIsLostExactly(cmds[n], scenes[n], scenes[n + 1]);
    }
  }

  // ---- The actor's loop -----------------------------------------------------------------------

  ghost function SceneOf(a: Actor): Scene
    reads a, a.state
  {
    Scene(a.Wires(), a.state.View())
  }

  lemma ValidIsProper(a: Actor)
    requires a.Valid()
    ensures IsProper(SceneOf(a))
  {
    hide Inv, Reachable, OneEach;
    SaneWires(a.Wires(), a.streams, a.posted);
    hide ChannelsOk;
  }

  // A new subscription has a new id, and one reads from a channel that has something to read.
  predicate CanTake(cmd: Command, queues: Queues) {
    match cmd
    case Enter(_, id) => id !in queues
    case Read(id) => id in queues && queues[id] != []
    case _ => true
  }

  lemma ToldBy(cmd: Command, before: Scene, after: Scene, drops: seq<Drop>, news: seq<Posting>)
    requires OutcomeOf(cmd, before).Accepted?
    requires var outcome := OutcomeOf(cmd, before);
      IsBroadcast(ChannelsFor(cmd, before), after.channels, outcome.room, EnvelopeOf(outcome.reply, outcome.room), drops, news, after.room)
    ensures Did(cmd, before, after)
  {
    hide IsBroadcast, Step, ChannelsFor, EnvelopeOf;
  }

  method Take(a: Actor, cmd: Command)
    requires a.Valid() && CanTake(cmd, a.queues)
    modifies a, a.state
    ensures a.Valid() && IsProper(old(SceneOf(a))) && IsProper(SceneOf(a)) && Did(cmd, old(SceneOf(a)), SceneOf(a))
  {
    hide Inv, Reachable, ChannelsOk, OneEach, Step, IsProper, IsStale, AfterKicking, AllEnded, ClosedKept, IsBroadcast, SnapshotOf, PrivateViewOf, EnvelopeOf,
      HaveEnded, Opened;
    ValidIsProper(a);
    ghost var before, had := SceneOf(a), a.posted;
    ghost var drops: seq<Drop> := [];
    match cmd {
      case Dispatch(from, e, entropy) =>
        var reply;
        reply, drops := a.DispatchFrom(from, e, entropy);
      case Enter(p, id) =>
        a.Subscribe(p, id);
      case Quit(id, permanent, at) =>
        drops := a.Unsubscribe(id, permanent, at);
      case Expire(at) =>
        drops := a.PhaseTimer(at);
      case Read(id) =>
        var m := a.Receive(id);
    }
    if OutcomeOf(cmd, before).Accepted? {
      ToldBy(cmd, before, SceneOf(a), drops, a.posted[|had|..]);
    }
    assert Did(cmd, before, SceneOf(a));
    ValidIsProper(a);
  }

  lemma HistoryGoesOn(scenes: seq<Scene>, cmds: seq<Command>, cmd: Command, next: Scene)
    requires IsHistory(scenes, cmds) && Did(cmd, scenes[|cmds|], next) && IsProper(next)
    ensures IsHistory(scenes + [next], cmds + [cmd])
  {
    hide IsProper, Did;
    var all, took := scenes + [next], cmds + [cmd];
    forall k | 0 <= k < |took| ensures Did(took[k], all[k], all[k + 1]) {
    }
  }

  // The commands of a new actor, one after another; those that make no sense when their turn comes are
  // never sent. Whoever is seated in the end is shown as not connected exactly if they have departed or been
  // dropped and not joined since.
  method Serve(durations: PhaseDurations, maxSpectators: int, now: int, cmds: seq<Command>)
    returns (a: Actor, ghost scenes: seq<Scene>, ghost taken: seq<Command>)
    requires durations.Valid() && maxSpectators > 0
    ensures fresh(a) && a.Valid() && IsHistory(scenes, taken) && scenes[|taken|] == SceneOf(a)
    ensures scenes[0].room == NewRoom(durations, maxSpectators, now) && scenes[0].channels.subscribers == map[]
    ensures forall q :: IsAway(a.state.View(), q) <==>
      IsSeated(a.state.View(), q) && exists i :: 0 <= i < |taken| && GoneSince(scenes, taken, q, i)
  {
    hide Inv, Reachable, ChannelsOk, OneEach, IsProper, Did, IsAway, IsSeated, GoneSince;
    a := new Actor(durations, maxSpectators, now);
    ValidIsProper(a);
    scenes, taken := [SceneOf(a)], [];
    for n := 0 to |cmds|
      invariant fresh(a) && fresh(a.state) && a.Valid()
      invariant IsHistory(scenes, taken) && scenes[|taken|] == SceneOf(a)
      invariant scenes[0].room == NewRoom(durations, maxSpectators, now) && scenes[0].channels.subscribers == map[]
    {
      if CanTake(cmds[n], a.queues) {
        Take(a, cmds[n]);
        HistoryGoesOn(scenes, taken, cmds[n], SceneOf(a));
        scenes, taken := scenes + [SceneOf(a)], taken + [cmds[n]];
      }
    }
    forall q ensures IsAway(a.state.View(), q) <==>
      IsSeated(a.state.View(), q) && exists i :: 0 <= i < |taken| && GoneSince(scenes, taken, q, i)
    {
      NobodyIsAway(durations, maxSpectators, now, q);
      AwayOverRuns(scenes, taken, q);
    }
  }

  lemma NobodyIsAway(durations: PhaseDurations, maxSpectators: int, now: int, q: Id)
    ensures !IsAway(NewRoom(durations, maxSpectators, now), q)
  {
  }
}
