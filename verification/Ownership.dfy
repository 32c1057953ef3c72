// Who owns a room.

module Ownership {
  import opened Rules
  import opened Settings
  import opened RoomModel
  import opened RoomInvariant
  import opened RoomSteps
  import opened RoomRuns
  import opened Seats

  // The owner is seated whenever anyone is, and there is none otherwise.
  predicate OwnerOk(r: Room) {
    if r.players == map[] then r.owner == NO_ID else r.owner in r.players
  }

  // The owner returns a room to waiting while nobody seated is connected.
  predicate Abandons(r: Room, e: Event) {
    e.kind.ReturnToWaiting? && r.players != map[] && Connected(r.players) == {}
  }

  lemma SameSeatsSameOwner(r: Room, s: Room)
    requires OwnerOk(r) && r.players.Keys == s.players.Keys && s.owner == r.owner
    ensures OwnerOk(s)
  {
    assert r.players == map[] <==> r.players.Keys == {};
    assert s.players == map[] <==> s.players.Keys == {};
  }

  lemma SuccessorIsSeated(owner: Id, players: Players)
    ensures owner in players ==> ConnectedOwner(owner, players) in players
    ensures Connected(players) != {} ==> ConnectedOwner(owner, players) in players
  {
  }

  lemma JoinKeepsOwner(r: Room, p: Id, kind: EventKind, at: int, entropy: Entropy)
    requires OwnerOk(r) && kind.Join? && AfterJoin(r, p, kind, at, entropy).Accepted?
    ensures OwnerOk(AfterJoin(r, p, kind, at, entropy).room)
  {
    hide ConnectedOwner;
    if p in r.players {
      SuccessorIsSeated(r.owner, Rejoined(r, p, kind.name).players);
    }
  }

  lemma DisconnectKeepsOwner(r: Room, p: Id, at: int)
    requires OwnerOk(r) && AfterDisconnect(r, p, at).Accepted?
    ensures OwnerOk(AfterDisconnect(r, p, at).room)
  {
    if p in r.players {
      SuccessorIsSeated(p, PlayerDropped(r, p).players);
      assert PlayerDropped(r, p).players.Keys == r.players.Keys;
    }
    hide ConnectedOwner;
  }

  lemma LeaveKeepsOwner(r: Room, p: Id, at: int)
    requires OwnerOk(r) && AfterLeave(r, p, at).Accepted?
    ensures OwnerOk(AfterLeave(r, p, at).room)
  {
    hide AfterDisconnect;
    if r.phase == Waiting && p in r.players {
      var left := r.players - {p};
      assert left == map[] <==> left.Keys == {};
    } else if !(r.phase == Waiting && p in r.spectators) {
      DisconnectKeepsOwner(r, p, at);
    }
  }

  lemma ReturnKeepsOwner(r: Room, at: int)
    requires OwnerOk(r) && CapacityOk(r)
    ensures OwnerOk(WaitingAgain(r, at)) <==> r.players == map[] || Connected(r.players) != {}
  {
    var s := WaitingAgain(r, at);
    assert s.players.Keys == Connected(r.players) == Connected(s.players);
    SuccessorIsSeated(r.owner, s.players);
    assert s.players == map[] <==> s.players.Keys == {};
    if r.players == map[] {
      assert Connected(r.players) == {};
    }
  }

  lemma PlayKeepsOwner(r: Room, e: Event, entropy: Entropy)
    requires Inv(r) && OwnerOk(r) && IsPlay(e.kind) && Handled(r, e, entropy).Accepted?
    ensures OwnerOk(Handled(r, e, entropy).room)
  {
    PlayNeedsAnActiveGame(r, e, entropy);
    PlayKeepsEveryone(r, e, entropy);
    hide Inv, Handled;
    SameSeatsSameOwner(r, Handled(r, e, entropy).room);
  }

  lemma StartKeepsOwner(r: Room, p: Id, at: int, entropy: Entropy)
    requires OwnerOk(r) && AfterStartGame(r, p, at, entropy).Accepted?
    ensures OwnerOk(AfterStartGame(r, p, at, entropy).room)
  {
    DealtAlive(r.players, ShuffledDeck(|r.players|, r.settings.roles, entropy.draws));
    hide StartRefusal, ShuffledDeck, Dealt, ValidateForStart;
    SameSeatsSameOwner(r, AfterStartGame(r, p, at, entropy).room);
  }

  lemma KickKeepsOwner(r: Room, p: Id, target: Id, at: int)
    requires OwnerOk(r) && AfterKick(r, p, target, at).Accepted?
    ensures OwnerOk(AfterKick(r, p, target, at).room)
  {
    if target in r.players {
      assert r.owner in r.players - {target};
    }
  }

  lemma SettingsKeepOwner(r: Room, settings: GameSettings, durations: PhaseDurations, at: int)
    requires OwnerOk(r)
    ensures OwnerOk(AfterSettings(r, settings, durations, at).room)
  {
    SameSeatsSameOwner(r, AfterSettings(r, settings, durations, at).room);
  }

  lemma AdministrationKeepsOwner(r: Room, e: Event, entropy: Entropy)
    requires OwnerOk(r) && IsAdministration(e.kind) && !e.kind.ReturnToWaiting? && Handled(r, e, entropy).Accepted?
    ensures OwnerOk(Handled(r, e, entropy).room)
  {
    hide AfterKick, Validate, ValidateForStart, GameSettingsForPreset, AfterSettings;
    match e.kind
    case KickParticipant(target) => KickKeepsOwner(r, e.player, target, e.at);
    case SetGameSettings(settings) =>
      SettingsKeepOwner(r, settings.(preset := Custom), Validate(settings.(preset := Custom), r.maxPlayers).value, e.at);
    case SetGamePreset(preset) =>
      var settings := GameSettingsForPreset(preset, r.base).value;
      SettingsKeepOwner(r, settings, ValidateForStart(settings, r.maxPlayers, r.base).value, e.at);
    case SetPlayerLimit(_) =>
  }

  // These events touch one participant, or name an owner who is seated.
  lemma TouchKeepsSeats(r: Room, e: Event, entropy: Entropy)
    requires TouchesOneParticipant(e.kind) && Handled(r, e, entropy).Accepted?
    ensures var s := Handled(r, e, entropy).room;
      s.players.Keys == r.players.Keys && if e.kind.TransferOwner? then s.owner in s.players else s.owner == r.owner
  {
    hide AfterJoin, AfterLeave, AfterDisconnect, AfterStartGame, AfterReady, AfterChat, AfterPresence, AfterNightAction, AfterNightPass, AfterStartVote,
      AfterVote, AfterShoot, AfterKick, AfterSetPlayerLimit, AfterSetGameSettings, AfterSetGamePreset, AfterReturnToWaiting, AfterPhaseTimeout;
    if e.kind.Ready? {
      ReadyKeepsSeats(r, e.player, e.kind.ready, e.at);
    } else if e.kind.Presence? {
      PresenceKeepsSeats(r, e.player, e.kind.afk, e.at);
    } else if e.kind.Chat? {
      ChatTouchesPlayer(r, e.player, e.kind.message, e.at);
    }
  }

  lemma ReadyKeepsSeats(r: Room, p: Id, ready: bool, at: int)
    requires AfterReady(r, p, ready, at).Accepted?
    ensures var s := AfterReady(r, p, ready, at).room; s.players.Keys == r.players.Keys && s.owner == r.owner
  {
  }

  lemma PresenceKeepsSeats(r: Room, p: Id, afk: bool, at: int)
    requires AfterPresence(r, p, afk, at).Accepted?
    ensures var s := AfterPresence(r, p, afk, at).room; s.players.Keys == r.players.Keys && s.owner == r.owner
  {
  }

  lemma PresenceKeepsOwner(r: Room, e: Event, entropy: Entropy)
    requires OwnerOk(r) && TouchesOneParticipant(e.kind) && Handled(r, e, entropy).Accepted?
    ensures OwnerOk(Handled(r, e, entropy).room)
  {
    hide Handled;
    TouchKeepsSeats(r, e, entropy);
    var s := Handled(r, e, entropy).room;
    if !e.kind.TransferOwner? {
      SameSeatsSameOwner(r, s);
    }
  }

  lemma CapacityStands(r: Room)
    requires Inv(r)
    ensures CapacityOk(r)
  {
  }

  lemma HandledKeepsOwner(r: Room, e: Event, entropy: Entropy)
    requires Inv(r) && OwnerOk(r) && Handled(r, e, entropy).Accepted?
    ensures OwnerOk(Handled(r, e, entropy).room) <==> !Abandons(r, e)
  {
    hide Inv, AfterJoin, AfterLeave, AfterDisconnect, AfterStartGame, AfterKick, AfterSetPlayerLimit, AfterSetGameSettings,
      AfterSetGamePreset, AfterReady, AfterPresence, AfterChat, AfterNightAction, AfterNightPass, AfterVote, AfterShoot,
      AfterPhaseTimeout, AfterStartVote, AfterTransferOwner, WaitingAgain, CapacityOk, OwnerOk;
    CapacityStands(r);
    if IsPlay(e.kind) {
      PlayKeepsOwner(r, e, entropy);
    } else if TouchesOneParticipant(e.kind) {
      PresenceKeepsOwner(r, e, entropy);
    } else if e.kind.ReturnToWaiting? {
      ReturnKeepsOwner(r, e.at);
      StampKeepsOwner(WaitingAgain(r, e.at), e.at);
    } else if IsAdministration(e.kind) {
      AdministrationKeepsOwner(r, e, entropy);
    } else if e.kind.Join? {
      JoinKeepsOwner(r, e.player, e.kind, e.at, entropy);
    } else if e.kind.StartGame? {
      StartKeepsOwner(r, e.player, e.at, entropy);
    } else if e.kind.Leave? {
      LeaveKeepsOwner(r, e.player, e.at);
    } else {
      DisconnectKeepsOwner(r, e.player, e.at);
    }
  }

  lemma StampKeepsOwner(r: Room, at: int)
    ensures OwnerOk(r.(updatedAt := at)) <==> OwnerOk(r)
  {
  }

  // An accepted event leaves the room with a proper owner exactly when it does not return the room
  // to waiting with nobody connected.
  lemma OwnerIsLostOnlyByAbandoning(r: Room, e: Event, entropy: Entropy)
    requires Inv(r) && OwnerOk(r) && Step(r, e, entropy).Accepted?
    ensures OwnerOk(Step(r, e, entropy).room) <==> !Abandons(r, e)
  {
    hide Inv, Handled, OwnerOk;
    HandledKeepsOwner(r, e, entropy);
    SequenceKeepsOwner(Handled(r, e, entropy).room, e.player, e.sequence);
  }

  lemma SequenceKeepsOwner(r: Room, p: Id, sequence: nat)
    ensures OwnerOk(WithSequence(r, p, sequence)) <==> OwnerOk(r)
  {
    if p in r.players {
      assert r.players != map[] && r.players[p := r.players[p].(lastSequence := sequence)] != map[];
    }
  }

  // In a run in which nobody abandons the room, it always has a proper owner.
  lemma {:induction false} RunKeepsOwner(r: Room, inputs: seq<Input>)
    requires Inv(r) && OwnerOk(r)
    requires forall i :: 0 <= i < |inputs| ==> !Abandons(Run(r, inputs[..i]), inputs[i].event)
    ensures OwnerOk(Run(r, inputs))
  {
    if inputs == [] {
    } else {
      var init, last := inputs[..|inputs| - 1], inputs[|inputs| - 1];
      assert forall i :: 0 <= i < |init| ==> init[..i] == inputs[..i] && init[i] == inputs[i];
      hide Inv, OwnerOk, Abandons, Step;
      RunKeepsOwner(r, init);
      RunKeepsInv(r, init);
      if Step(Run(r, init), last.event, last.entropy).Accepted? {
        OwnerIsLostOnlyByAbandoning(Run(r, init), last.event, last.entropy);
      }
    }
  }

  // ---- A room without its owner ---------------------------------------------------------------

  // The owner on record is not seated.
  predicate IsLost(r: Room) {
    r.owner != NO_ID && r.owner !in r.players
  }

  // A seated player joins again, or one by the owner's id joins as a player, or whoever sends the owner's
  // events names an owner or returns the room to waiting while somebody seated is connected.
  predicate GivesOwner(r: Room, e: Event) {
    || (e.kind.Join? && (e.player in r.players || (!e.kind.spectator && e.player !in r.spectators && e.player == r.owner)))
    || e.kind.TransferOwner?
    || (e.kind.ReturnToWaiting? && Connected(r.players) != {})
  }

  // What an accepted event makes of a lost owner.
  ghost predicate LostFollows(r: Room, s: Room, e: Event) {
    if GivesOwner(r, e) then s.owner in s.players else s.owner == r.owner && IsLost(s)
  }

  lemma SeatsStayLost(r: Room, s: Room, e: Event)
    requires IsLost(r) && s.players.Keys <= r.players.Keys && s.owner == r.owner && !GivesOwner(r, e)
    ensures LostFollows(r, s, e)
  {
  }

  lemma JoinFindsOwner(r: Room, e: Event, entropy: Entropy)
    requires IsLost(r) && e.kind.Join? && AfterJoin(r, e.player, e.kind, e.at, entropy).Accepted?
    ensures LostFollows(r, AfterJoin(r, e.player, e.kind, e.at, entropy).room, e)
  {
    hide ConnectedOwner;
    if e.player in r.players {
      var players := Rejoined(r, e.player, e.kind.name).players;
      assert e.player in Connected(players);
      SuccessorIsSeated(r.owner, players);
    }
  }

  lemma LeaveFindsNobody(r: Room, e: Event)
    requires IsLost(r) && (e.kind.Leave? || e.kind.Disconnect?)
    ensures e.kind.Leave? && AfterLeave(r, e.player, e.at).Accepted? ==> LostFollows(r, AfterLeave(r, e.player, e.at).room, e)
    ensures e.kind.Disconnect? && AfterDisconnect(r, e.player, e.at).Accepted? ==> LostFollows(r, AfterDisconnect(r, e.player, e.at).room, e)
  {
    hide ConnectedOwner, Least;
  }

  lemma ReturnFindsOwner(r: Room, e: Event)
    requires IsLost(r) && e.kind.ReturnToWaiting?
    ensures LostFollows(r, WaitingAgain(r, e.at), e)
  {
    hide Least;
    var players := SeatsReset(r.players);
    assert players.Keys == Connected(r.players) == Connected(players);
    SuccessorIsSeated(r.owner, players);
  }

  lemma KickFindsNobody(r: Room, e: Event, target: Id)
    requires IsLost(r) && e.kind.KickParticipant? && AfterKick(r, e.player, target, e.at).Accepted?
    ensures LostFollows(r, AfterKick(r, e.player, target, e.at).room, e)
  {
  }

  lemma SettingsFindNobody(r: Room, e: Event, settings: GameSettings, durations: PhaseDurations)
    requires IsLost(r) && !GivesOwner(r, e)
    ensures LostFollows(r, AfterSettings(r, settings, durations, e.at).room, e)
  {
  }

  lemma RulesFindNobody(r: Room, e: Event, entropy: Entropy)
    requires IsLost(r) && (e.kind.SetPlayerLimit? || e.kind.SetGameSettings? || e.kind.SetGamePreset?) && Handled(r, e, entropy).Accepted?
    ensures LostFollows(r, Handled(r, e, entropy).room, e)
  {
    hide AfterKick, Validate, ValidateForStart, GameSettingsForPreset, AfterSettings, AfterJoin, AfterLeave, AfterDisconnect, AfterStartGame, AfterReady,
      AfterChat, AfterPresence, AfterNightAction, AfterNightPass, AfterStartVote, AfterVote, AfterShoot, AfterReturnToWaiting, AfterPhaseTimeout;
    match e.kind
    case SetGameSettings(settings) =>
      SettingsFindNobody(r, e, settings.(preset := Custom), Validate(settings.(preset := Custom), r.maxPlayers).value);
    case SetGamePreset(preset) =>
      var settings := GameSettingsForPreset(preset, r.base).value;
      SettingsFindNobody(r, e, settings, ValidateForStart(settings, r.maxPlayers, r.base).value);
    case SetPlayerLimit(_) =>
  }

  lemma StartFindsNobody(r: Room, e: Event, entropy: Entropy)
    requires IsLost(r) && e.kind.StartGame? && AfterStartGame(r, e.player, e.at, entropy).Accepted?
    ensures LostFollows(r, AfterStartGame(r, e.player, e.at, entropy).room, e)
  {
    hide StartRefusal, ShuffledDeck, Dealt, ValidateForStart;
    DealtAlive(r.players, ShuffledDeck(|r.players|, r.settings.roles, entropy.draws));
  }

  lemma TouchFindsOwner(r: Room, e: Event, entropy: Entropy)
    requires IsLost(r) && TouchesOneParticipant(e.kind) && Handled(r, e, entropy).Accepted?
    ensures LostFollows(r, Handled(r, e, entropy).room, e)
  {
    hide Handled;
    TouchKeepsSeats(r, e, entropy);
  }

  lemma PlayFindsNobody(r: Room, e: Event, entropy: Entropy)
    requires Inv(r) && IsLost(r) && IsPlay(e.kind) && Handled(r, e, entropy).Accepted?
    ensures LostFollows(r, Handled(r, e, entropy).room, e)
  {
    hide Inv, Handled;
    PlayNeedsAnActiveGame(r, e, entropy);
    PlayKeepsEveryone(r, e, entropy);
  }

  lemma HandledFollowsLost(r: Room, e: Event, entropy: Entropy)
    requires Inv(r) && IsLost(r) && Handled(r, e, entropy).Accepted?
    ensures LostFollows(r, Handled(r, e, entropy).room, e)
  {
    hide Inv, AfterJoin, AfterLeave, AfterDisconnect, AfterStartGame, AfterKick, AfterSetPlayerLimit, AfterSetGameSettings,
      AfterSetGamePreset, AfterReady, AfterPresence, AfterChat, AfterNightAction, AfterNightPass, AfterVote, AfterShoot,
      AfterPhaseTimeout, AfterStartVote, AfterTransferOwner, WaitingAgain, LostFollows, IsLost;
    if IsPlay(e.kind) {
      PlayFindsNobody(r, e, entropy);
    } else if TouchesOneParticipant(e.kind) {
      TouchFindsOwner(r, e, entropy);
    } else if e.kind.ReturnToWaiting? {
      ReturnFindsOwner(r, e);
      StampFollowsLost(r, WaitingAgain(r, e.at), e);
    } else if e.kind.KickParticipant? {
      KickFindsNobody(r, e, e.kind.target);
    } else if IsAdministration(e.kind) {
      RulesFindNobody(r, e, entropy);
    } else if e.kind.Join? {
      JoinFindsOwner(r, e, entropy);
    } else if e.kind.StartGame? {
      StartFindsNobody(r, e, entropy);
    } else {
      LeaveFindsNobody(r, e);
    }
  }

  lemma StampFollowsLost(r: Room, s: Room, e: Event)
    requires LostFollows(r, s, e)
    ensures LostFollows(r, s.(updatedAt := e.at), e)
  {
  }

  // A lost owner is made good by exactly these events; after any other the same id is still on record, and
  // still not seated.
  lemma OwnerIsFoundExactly(r: Room, e: Event, entropy: Entropy)
    requires Inv(r) && IsLost(r) && Step(r, e, entropy).Accepted?
    ensures var s := Step(r, e, entropy).room;
      (OwnerOk(s) <==> GivesOwner(r, e)) && (!GivesOwner(r, e) ==> s.owner == r.owner && IsLost(s))
  {
    hide Inv, Handled, GivesOwner;
    HandledFollowsLost(r, e, entropy);
    SequenceKeepsSeat(Handled(r, e, entropy).room, e.player, e.sequence);
    hide WithSequence;
  }

  lemma SequenceKeepsSeat(r: Room, p: Id, n: nat)
    ensures WithSequence(r, p, n).players.Keys == r.players.Keys && WithSequence(r, p, n).owner == r.owner
  {
    if p in r.players {
      assert WithSequence(r, p, n).players == r.players[p := r.players[p].(lastSequence := n)];
    } else {
      assert WithSequence(r, p, n).players == r.players;
    }
  }

  // A room has a proper owner or a lost one.
  lemma OwnedOrLost(r: Room)
    ensures OwnerOk(r) ==> !IsLost(r)
    ensures !OwnerOk(r) && (r.owner == NO_ID ==> r.players == map[]) ==> IsLost(r)
  {
  }

  ghost predicate LosesOwner(r: Room, input: Input) {
    Step(r, input.event, input.entropy).Accepted? && Abandons(r, input.event)
  }

  ghost predicate FindsOwner(r: Room, input: Input) {
    Step(r, input.event, input.entropy).Accepted? && GivesOwner(r, input.event)
  }

  // By the i-th event the owner was lost, and none has given the room one since.
  ghost predicate LostSince(r: Room, inputs: seq<Input>, i: nat)
    requires i < |inputs|
  {
    LosesOwner(Run(r, inputs[..i]), inputs[i]) && forall j :: i < j < |inputs| ==> !FindsOwner(Run(r, inputs[..j]), inputs[j])
  }

  lemma AbandonedIsLost(r: Room, e: Event, entropy: Entropy)
    requires Inv(r) && Abandons(r, e) && Step(r, e, entropy).Accepted? && r.owner != NO_ID
    ensures IsLost(Step(r, e, entropy).room)
  {
    hide Inv, Least;
    var s := WaitingAgain(r, e.at);
    assert s.players.Keys == {};
    SequenceKeepsSeat(s.(updatedAt := e.at), e.player, e.sequence);
    hide WithSequence;
  }

  lemma StepOwner(r: Room, input: Input)
    requires Inv(r) && (OwnerOk(r) || IsLost(r))
    ensures var s := After(r, input);
      && (OwnerOk(s) || IsLost(s))
      && (IsLost(s) <==> LosesOwner(r, input) || (IsLost(r) && !FindsOwner(r, input)))
  {
    hide Inv, Step;
    if Step(r, input.event, input.entropy).Accepted? {
      if OwnerOk(r) {
        OwnerIsLostOnlyByAbandoning(r, input.event, input.entropy);
        if Abandons(r, input.event) {
          OwnerIsSomeone(r);
          AbandonedIsLost(r, input.event, input.entropy);
        }
      } else {
        OwnerIsFoundExactly(r, input.event, input.entropy);
      }
      OwnedOrLost(After(r, input));
    }
  }

  lemma OwnerIsSomeone(r: Room)
    requires Inv(r) && OwnerOk(r) && r.players != map[]
    ensures r.owner != NO_ID
  {
    assert CapacityOk(r);
  }

  lemma OneMoreInput(r: Room, inputs: seq<Input>, i: nat)
    requires i < |inputs| - 1
    ensures var n := |inputs| - 1;
      LostSince(r, inputs, i) <==> LostSince(r, inputs[..n], i) && !FindsOwner(Run(r, inputs[..n]), inputs[n])
  {
    hide LosesOwner, FindsOwner, Run;
    var n := |inputs| - 1;
    var init := inputs[..n];
    assert forall j :: 0 <= j < n ==> init[..j] == inputs[..j] && init[j] == inputs[j];
    if LostSince(r, init, i) && !FindsOwner(Run(r, init), inputs[n]) {
      forall j | i < j < |inputs| ensures !FindsOwner(Run(r, inputs[..j]), inputs[j]) {
        assert j < n ==> !FindsOwner(Run(r, init[..j]), init[j]);
      }
    }
    if LostSince(r, inputs, i) {
      forall j | i < j < n ensures !FindsOwner(Run(r, init[..j]), init[j]) {
        assert !FindsOwner(Run(r, inputs[..j]), inputs[j]);
      }
    }
  }

  // Over any run the owner is lost exactly if somebody abandoned the room and no event since has given it one.
  lemma {:induction false} OwnerIsLostOverRuns(r: Room, inputs: seq<Input>)
    requires Inv(r) && OwnerOk(r)
    ensures var s := Run(r, inputs);
      && (OwnerOk(s) <==> !IsLost(s))
      && (IsLost(s) <==> exists i :: 0 <= i < |inputs| && LostSince(r, inputs, i))
    decreases |inputs|
  {
    hide Inv, OwnerOk, IsLost, LosesOwner, FindsOwner, After;
    OwnedOrLost(Run(r, inputs));
    if inputs == [] {
    } else {
      var n := |inputs| - 1;
      var init := inputs[..n];
      OwnerIsLostOverRuns(r, init);
      RunKeepsInv(r, init);
      StepOwner(Run(r, init), inputs[n]);
      forall i | 0 <= i < n ensures LostSince(r, inputs, i) <==> LostSince(r, init, i) && !FindsOwner(Run(r, init), inputs[n]) {
        OneMoreInput(r, inputs, i);
      }
      assert LostSince(r, inputs, n) <==> LosesOwner(Run(r, init), inputs[n]);
    }
  }

  // ---- A room that loses its owner ------------------------------------------------------------

  const ANN: Id := Id(1)
  const BOB: Id := Id(2)
  const BRIEF := PhaseDurations(1, 1, 1, 1)

  function Says(player: Id, kind: EventKind): Input {
    Input(Event(player, 0, kind, 0), Entropy(7, [0, 0]))
  }

  // Two players start a game, both connections are lost, and the owner, on a connection opened
  // before the loss of the old one was noticed, returns the room to waiting.
  function Abandonment(): seq<Input> {
    [Says(ANN, Join("ann", 0, false)), Says(BOB, Join("bob", 0, false)), Says(BOB, Ready(true)), Says(ANN, StartGame),
     Says(BOB, Disconnect), Says(ANN, Disconnect), Says(ANN, ReturnToWaiting), Says(BOB, Join("bob", 0, false))]
  }

  ghost function Abandoned(): Room {
    Run(NewRoom(BRIEF, 1, 0), Abandonment())
  }

  // Ann and Bob are seated, Ann owns the room.
  ghost predicate BothSeated(r: Room, phase: Phase, ann: bool, bob: bool) {
    && r.owner == ANN && r.phase == phase && r.spectators == map[] && !r.locked && r.maxPlayers == DEFAULT_MAX_PLAYERS
    && r.players.Keys == {ANN, BOB} && r.players[ANN].connected == ann && r.players[BOB].connected == bob
    && r.base == BRIEF && r.settings == StandardGameSettings(BRIEF)
    && (forall p :: p in r.players ==> r.players[p].token == 7 && r.players[p].lastSequence == 0)
  }

  lemma BothJoin(r: Room)
    requires r == NewRoom(BRIEF, 1, 0)
    ensures var s := After(After(r, Says(ANN, Join("ann", 0, false))), Says(BOB, Join("bob", 0, false)));
      BothSeated(s, Waiting, true, true)
  {
    hide ConnectedOwner;
    var s := After(r, Says(ANN, Join("ann", 0, false)));
    assert s.players.Keys == {ANN} && |s.players| == 1 && s.owner == ANN;
  }

  lemma BobIsReady(r: Room)
    requires BothSeated(r, Waiting, true, true)
    ensures var s := After(r, Says(BOB, Ready(true))); BothSeated(s, Waiting, true, true) && s.players[BOB].ready
  {
    hide GameSettingsForPreset, ValidateForStart;
  }

  lemma AnnMayStart(r: Room)
    requires BothSeated(r, Waiting, true, true) && r.players[BOB].ready
    ensures StartRefusal(r, ANN, [0, 0]) == None && |r.players| == 2
  {
    PresetsAreStartable(Standard, BRIEF, DEFAULT_MAX_PLAYERS);
    assert |r.players| == |r.players.Keys| == 2;
  }

  lemma StartsAs(r: Room, p: Id, durations: PhaseDurations, roles: seq<Role>)
    requires StartRefusal(r, p, [0, 0]) == None && |roles| == |r.players|
    requires ValidateForStart(r.settings, r.maxPlayers, r.base) == Ok(durations) && roles == ShuffledDeck(|r.players|, r.settings.roles, [0, 0])
    ensures After(r, Says(p, StartGame)) == GameStartedRoom(r, p, 0, durations, roles).(updatedAt := 0)
  {
    hide StartRefusal, ValidateForStart, ShuffledDeck, GameStartedRoom, AfterJoin, AfterLeave, AfterDisconnect, AfterReady, AfterChat, AfterPresence, AfterNightAction, AfterNightPass, AfterStartVote,
      AfterVote, AfterShoot, AfterTransferOwner, AfterKick, AfterSetPlayerLimit, AfterSetGameSettings, AfterSetGamePreset, AfterReturnToWaiting, AfterPhaseTimeout;
  }

  lemma GameStarts(r: Room)
    requires BothSeated(r, Waiting, true, true) && r.players[BOB].ready
    ensures BothSeated(After(r, Says(ANN, StartGame)), Night, true, true)
  {
    hide After, StartRefusal, ValidateForStart, ShuffledDeck, Sorted, IndexOf, GameSettingsForPreset;
    AnnMayStart(r);
    StartsAs(r, ANN, ValidateForStart(r.settings, r.maxPlayers, r.base).value, ShuffledDeck(|r.players|, r.settings.roles, [0, 0]));
  }

  lemma BobDrops(r: Room)
    requires BothSeated(r, Night, true, true)
    ensures BothSeated(After(r, Says(BOB, Disconnect)), Night, true, false)
  {
    hide Least;
  }

  lemma AnnDrops(r: Room)
    requires BothSeated(r, Night, true, false)
    ensures BothSeated(After(r, Says(ANN, Disconnect)), Night, false, false)
  {
    hide Least;
    assert Connected(r.players[ANN := r.players[ANN].(connected := false, afk := false)]) == {};
  }

  lemma BothDrop(r: Room)
    requires BothSeated(r, Night, true, true)
    ensures BothSeated(After(After(r, Says(BOB, Disconnect)), Says(ANN, Disconnect)), Night, false, false)
  {
    hide After, BothSeated;
    BobDrops(r);
    AnnDrops(After(r, Says(BOB, Disconnect)));
  }

  lemma AnnReturns(r: Room)
    requires BothSeated(r, Night, false, false)
    ensures var s := After(r, Says(ANN, ReturnToWaiting));
      s.players == map[] && s.owner == ANN && s.phase == Waiting && s.spectators == map[] && !s.locked && s.maxPlayers == DEFAULT_MAX_PLAYERS
  {
    hide Least;
    var s := After(r, Says(ANN, ReturnToWaiting));
    assert s.players.Keys == {};
  }

  lemma EightSteps(r: Room, inputs: seq<Input>)
    requires |inputs| == 8
    ensures var s := After(After(After(After(r, inputs[0]), inputs[1]), inputs[2]), inputs[3]);
      Run(r, inputs) == After(After(After(After(s, inputs[4]), inputs[5]), inputs[6]), inputs[7])
  {
    hide After;
    assert inputs[..0] == [] && inputs[..8] == inputs;
    RunStep(r, inputs, 0);
    RunStep(r, inputs, 1);
    RunStep(r, inputs, 2);
    RunStep(r, inputs, 3);
    RunStep(r, inputs, 4);
    RunStep(r, inputs, 5);
    RunStep(r, inputs, 6);
    RunStep(r, inputs, 7);
  }

  // The room is left without players but with an owner on record, and Bob, who joins next, does not own it.
  lemma OwnerCanBeLost()
    ensures Reachable(Abandoned())
    ensures Abandoned().players.Keys == {BOB} && Abandoned().owner == ANN && !OwnerOk(Abandoned())
  {
    var r := NewRoom(BRIEF, 1, 0);
    assert ReachableBy(Abandoned(), BRIEF, 1, 0, Abandonment());
    EightSteps(r, Abandonment());
    hide After, NewRoom, ReachableBy, BothSeated, Run, OwnerOk;
    BothJoin(r);
    var seated := After(After(r, Says(ANN, Join("ann", 0, false))), Says(BOB, Join("bob", 0, false)));
    BobIsReady(seated);
    var ready := After(seated, Says(BOB, Ready(true)));
    GameStarts(ready);
    var started := After(ready, Says(ANN, StartGame));
    BothDrop(started);
    var dropped := After(After(started, Says(BOB, Disconnect)), Says(ANN, Disconnect));
    AnnReturns(dropped);
    BobOwnsNothing(After(dropped, Says(ANN, ReturnToWaiting)));
  }

  lemma BobOwnsNothing(r: Room)
    requires r.players == map[] && r.owner == ANN && r.phase == Waiting && r.spectators == map[] && !r.locked && r.maxPlayers == DEFAULT_MAX_PLAYERS
    ensures var s := After(r, Says(BOB, Join("bob", 0, false))); s.players.Keys == {BOB} && s.owner == ANN && !OwnerOk(s)
  {
    var s := After(r, Says(BOB, Join("bob", 0, false)));
    assert BOB in s.players;
  }

}
