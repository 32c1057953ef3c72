// The server's side of reliable events: a seat applies its sequenced events at most once, in order.

module Cursors {
  import opened Rules
  import opened Settings
  import opened RoomModel
  import opened RoomInvariant
  import opened RoomSteps
  import opened RoomRuns
  import opened Seats
  import Browser
  import Delivery

  predicate PlayerCursorsKept(a: Players, b: Players) {
    forall p :: p in a && p in b ==> b[p].lastSequence == a[p].lastSequence
  }

  predicate SpectatorCursorsKept(a: map<Id, Spectator>, b: map<Id, Spectator>) {
    forall p :: p in a && p in b ==> b[p].lastSequence == a[p].lastSequence
  }

  // A seat that is in both rooms has the same cursor in both, and is of the same kind.
  predicate CursorsKept(r: Room, s: Room) {
    && PlayerCursorsKept(r.players, s.players)
    && SpectatorCursorsKept(r.spectators, s.spectators)
    && r.players.Keys !! s.spectators.Keys
    && r.spectators.Keys !! s.players.Keys
  }

  // What an event does when it touches players only.
  lemma PlayersOnly(r: Room, s: Room)
    requires CapacityOk(r) && s.spectators.Keys <= r.spectators.Keys && s.players.Keys <= r.players.Keys
    requires PlayerCursorsKept(r.players, s.players) && SpectatorCursorsKept(r.spectators, s.spectators)
    ensures CursorsKept(r, s)
  {
    hide PlayerCursorsKept, SpectatorCursorsKept;
  }

  lemma JoinKeepsCursors(r: Room, p: Id, kind: EventKind, at: int, entropy: Entropy)
    requires CapacityOk(r) && kind.Join? && AfterJoin(r, p, kind, at, entropy).Accepted?
    ensures CursorsKept(r, AfterJoin(r, p, kind, at, entropy).room)
  {
    hide Rejoined, SpectatorRejoined, SpectatorSeated, PlayerSeated, CursorsKept, CapacityOk;
    if p in r.players {
      RejoinKeepsCursors(r, p, kind.name, at);
    } else if p in r.spectators {
      SpectatorRejoinKeepsCursors(r, p, kind.name, at);
    } else if kind.spectator {
      SpectatorSeatKeepsCursors(r, p, kind.name, entropy.token, at);
    } else {
      PlayerSeatKeepsCursors(r, p, kind.name, entropy.token, at);
    }
  }

  lemma RejoinKeepsCursors(r: Room, p: Id, name: string, at: int)
    requires CapacityOk(r) && p in r.players
    ensures CursorsKept(r, Rejoined(r, p, name).(updatedAt := at))
  {
    hide ConnectedOwner;
    PlayersOnly(r, Rejoined(r, p, name).(updatedAt := at));
    hide CursorsKept;
  }

  lemma SpectatorRejoinKeepsCursors(r: Room, p: Id, name: string, at: int)
    requires CapacityOk(r) && p in r.spectators
    ensures CursorsKept(r, SpectatorRejoined(r, p, name).(updatedAt := at))
  {
    PlayersOnly(r, SpectatorRejoined(r, p, name).(updatedAt := at));
    hide CursorsKept;
  }

  lemma NewSpectatorKeeps(spectators: map<Id, Spectator>, p: Id, newcomer: Spectator)
    requires p !in spectators
    ensures SpectatorCursorsKept(spectators, spectators[p := newcomer])
  {
  }

  lemma PlayerAdded(r: Room, s: Room, p: Id, newcomer: Player)
    requires CapacityOk(r) && p !in r.players && p !in r.spectators
    requires s.players == r.players[p := newcomer] && s.spectators == r.spectators
    ensures CursorsKept(r, s)
  {
    hide SpectatorCursorsKept, PlayerCursorsKept;
    NewPlayerKeeps(r.players, p, newcomer);
    NoSpectatorMoves(r.spectators);
  }

  lemma SpectatorAdded(r: Room, s: Room, p: Id, newcomer: Spectator)
    requires CapacityOk(r) && p !in r.players && p !in r.spectators
    requires s.spectators == r.spectators[p := newcomer] && s.players == r.players
    ensures CursorsKept(r, s)
  {
    hide SpectatorCursorsKept, PlayerCursorsKept;
    NewSpectatorKeeps(r.spectators, p, newcomer);
    NoPlayerMoves(r.players);
  }

  lemma NewPlayerKeeps(players: Players, p: Id, newcomer: Player)
    requires p !in players
    ensures PlayerCursorsKept(players, players[p := newcomer])
  {
  }

  lemma NoPlayerMoves(players: Players)
    ensures PlayerCursorsKept(players, players)
  {
  }

  lemma NoSpectatorMoves(spectators: map<Id, Spectator>)
    ensures SpectatorCursorsKept(spectators, spectators)
  {
  }

  lemma SpectatorSeatKeepsCursors(r: Room, p: Id, name: string, token: Token, at: int)
    requires CapacityOk(r) && p !in r.players && p !in r.spectators
    ensures CursorsKept(r, SpectatorSeated(r, p, name, token, at).(updatedAt := at))
  {
    hide CursorsKept, CapacityOk;
    SpectatorAdded(r, SpectatorSeated(r, p, name, token, at).(updatedAt := at), p, Spectator(name, token, true, false, 0, at));
  }

  lemma PlayerSeatKeepsCursors(r: Room, p: Id, name: string, token: Token, at: int)
    requires CapacityOk(r) && p !in r.players && p !in r.spectators
    ensures CursorsKept(r, PlayerSeated(r, p, name, token, at).(updatedAt := at))
  {
    hide CursorsKept, CapacityOk;
    PlayerAdded(r, PlayerSeated(r, p, name, token, at).(updatedAt := at), p, Player(name, token, false, true, NoRole, true, false, false, 0, at));
  }

  lemma DroppedPlayerKeepsCursors(r: Room, p: Id)
    requires p in r.players
    ensures PlayerDropped(r, p).players.Keys == r.players.Keys && PlayerCursorsKept(r.players, PlayerDropped(r, p).players)
    ensures PlayerDropped(r, p).spectators == r.spectators
  {
    hide ConnectedOwner;
  }

  lemma DroppedSpectatorKeepsCursors(r: Room, p: Id)
    requires p in r.spectators
    ensures SpectatorDropped(r, p).spectators.Keys == r.spectators.Keys
    ensures SpectatorCursorsKept(r.spectators, SpectatorDropped(r, p).spectators)
    ensures SpectatorDropped(r, p).players == r.players
  {
  }

  lemma DisconnectKeepsCursors(r: Room, p: Id, at: int)
    requires CapacityOk(r) && AfterDisconnect(r, p, at).Accepted?
    ensures CursorsKept(r, AfterDisconnect(r, p, at).room)
  {
    hide PlayerDropped, SpectatorDropped, CursorsKept, CapacityOk, PlayerCursorsKept, SpectatorCursorsKept;
    NoPlayerMoves(r.players);
    NoSpectatorMoves(r.spectators);
    if p in r.players {
      DroppedPlayerKeepsCursors(r, p);
    } else {
      DroppedSpectatorKeepsCursors(r, p);
    }
    PlayersOnly(r, AfterDisconnect(r, p, at).room);
  }

  lemma SeatLeftKeepsCursors(r: Room, p: Id, at: int)
    requires CapacityOk(r) && r.phase == Waiting && (p in r.players || p in r.spectators)
    ensures CursorsKept(r, AfterLeave(r, p, at).room)
  {
    hide AfterDisconnect, Least;
    PlayersOnly(r, AfterLeave(r, p, at).room);
    hide CursorsKept;
  }

  lemma LeaveKeepsCursors(r: Room, p: Id, at: int)
    requires CapacityOk(r) && AfterLeave(r, p, at).Accepted?
    ensures CursorsKept(r, AfterLeave(r, p, at).room)
  {
    if r.phase == Waiting && (p in r.players || p in r.spectators) {
      hide AfterLeave, CursorsKept, CapacityOk;
      SeatLeftKeepsCursors(r, p, at);
    } else {
      assert AfterLeave(r, p, at) == AfterDisconnect(r, p, at);
      hide AfterLeave, AfterDisconnect, CursorsKept, CapacityOk;
      DisconnectKeepsCursors(r, p, at);
    }
  }

  lemma ReadyKeepsCursors(r: Room, p: Id, ready: bool, at: int)
    requires CapacityOk(r) && AfterReady(r, p, ready, at).Accepted?
    ensures CursorsKept(r, AfterReady(r, p, ready, at).room)
  {
    PlayersOnly(r, AfterReady(r, p, ready, at).room);
    hide CursorsKept;
  }

  lemma PresenceKeepsCursors(r: Room, p: Id, afk: bool, at: int)
    requires CapacityOk(r) && AfterPresence(r, p, afk, at).Accepted?
    ensures CursorsKept(r, AfterPresence(r, p, afk, at).room)
  {
    hide CursorsKept, CapacityOk, PlayerCursorsKept, SpectatorCursorsKept;
    NoPlayerMoves(r.players);
    NoSpectatorMoves(r.spectators);
    if p in r.players {
      SamePlayerCursor(r.players, p, r.players[p].(afk := afk));
    } else {
      SameSpectatorCursor(r.spectators, p, r.spectators[p].(afk := afk));
    }
    PlayersOnly(r, AfterPresence(r, p, afk, at).room);
  }

  lemma SamePlayerCursor(players: Players, p: Id, player: Player)
    requires p in players && player.lastSequence == players[p].lastSequence
    ensures PlayerCursorsKept(players, players[p := player])
  {
  }

  lemma SameSpectatorCursor(spectators: map<Id, Spectator>, p: Id, spectator: Spectator)
    requires p in spectators && spectator.lastSequence == spectators[p].lastSequence
    ensures SpectatorCursorsKept(spectators, spectators[p := spectator])
  {
  }

  lemma SameSeatsKeepCursors(r: Room, s: Room)
    requires CapacityOk(r) && s.players == r.players && s.spectators == r.spectators
    ensures CursorsKept(r, s)
  {
  }

  lemma TalkKeepsCursors(r: Room, e: Event, entropy: Entropy)
    requires CapacityOk(r) && (e.kind.Chat? || e.kind.TransferOwner? || e.kind.SetRoomLocked?) && Handled(r, e, entropy).Accepted?
    ensures CursorsKept(r, Handled(r, e, entropy).room)
  {
    if e.kind.Chat? {
      ChatTouchesPlayer(r, e.player, e.kind.message, e.at);
    }
    hide AfterChat, CapacityOk, CursorsKept;
    SameSeatsKeepCursors(r, Handled(r, e, entropy).room);
  }

  lemma FewerPlayersKeep(players: Players, target: Id)
    ensures PlayerCursorsKept(players, players - {target})
  {
  }

  lemma FewerSpectatorsKeep(spectators: map<Id, Spectator>, target: Id)
    ensures SpectatorCursorsKept(spectators, spectators - {target})
  {
  }

  lemma KickKeepsCursors(r: Room, p: Id, target: Id, at: int)
    requires CapacityOk(r) && AfterKick(r, p, target, at).Accepted?
    ensures CursorsKept(r, AfterKick(r, p, target, at).room)
  {
    hide CursorsKept, CapacityOk, PlayerCursorsKept, SpectatorCursorsKept;
    NoPlayerMoves(r.players);
    NoSpectatorMoves(r.spectators);
    FewerPlayersKeep(r.players, target);
    FewerSpectatorsKeep(r.spectators, target);
    PlayersOnly(r, AfterKick(r, p, target, at).room);
  }

  lemma SettingsKeepCursors(r: Room, settings: GameSettings, durations: PhaseDurations, at: int)
    requires CapacityOk(r)
    ensures CursorsKept(r, AfterSettings(r, settings, durations, at).room)
  {
    PlayersOnly(r, AfterSettings(r, settings, durations, at).room);
    hide CursorsKept;
  }

  lemma LimitKeepsCursors(r: Room, p: Id, limit: int, at: int)
    requires CapacityOk(r) && AfterSetPlayerLimit(r, p, limit, at).Accepted?
    ensures CursorsKept(r, AfterSetPlayerLimit(r, p, limit, at).room)
  {
    hide CapacityOk, CursorsKept;
    SameSeatsKeepCursors(r, AfterSetPlayerLimit(r, p, limit, at).room);
  }

  lemma ReturnKeepsCursors(r: Room, at: int)
    requires CapacityOk(r)
    ensures CursorsKept(r, WaitingAgain(r, at).(updatedAt := at))
  {
    hide ConnectedOwner;
    PlayersOnly(r, WaitingAgain(r, at).(updatedAt := at));
    hide CursorsKept;
  }

  lemma AdministrationKeepsCursors(r: Room, e: Event, entropy: Entropy)
    requires CapacityOk(r) && IsAdministration(e.kind) && Handled(r, e, entropy).Accepted?
    ensures CursorsKept(r, Handled(r, e, entropy).room)
  {
    hide CapacityOk, CursorsKept, AfterKick, AfterSetPlayerLimit, Validate, ValidateForStart, AfterSettings, WaitingAgain;
    match e.kind
    case SetPlayerLimit(limit) => LimitKeepsCursors(r, e.player, limit, e.at);
    case SetGameSettings(settings) =>
      SettingsKeepCursors(r, settings.(preset := Custom), Validate(settings.(preset := Custom), r.maxPlayers).value, e.at);
    case SetGamePreset(preset) =>
      var settings := GameSettingsForPreset(preset, r.base).value;
      SettingsKeepCursors(r, settings, ValidateForStart(settings, r.maxPlayers, r.base).value, e.at);
    case KickParticipant(target) => KickKeepsCursors(r, e.player, target, e.at);
    case ReturnToWaiting => ReturnKeepsCursors(r, e.at);
  }

  lemma StartKeepsCursors(r: Room, p: Id, at: int, entropy: Entropy)
    requires CapacityOk(r) && AfterStartGame(r, p, at, entropy).Accepted?
    ensures CursorsKept(r, AfterStartGame(r, p, at, entropy).room)
  {
    hide StartRefusal, ShuffledDeck, IndexOf, Sorted, ValidateForStart;
    PlayersOnly(r, AfterStartGame(r, p, at, entropy).room);
    hide CursorsKept;
  }

  lemma HandledKeepsCursors(r: Room, e: Event, entropy: Entropy)
    requires Inv(r) && Handled(r, e, entropy).Accepted?
    ensures CursorsKept(r, Handled(r, e, entropy).room)
  {
    assert CapacityOk(r);
    if IsPlay(e.kind) {
      PlayNeedsAnActiveGame(r, e, entropy);
      PlayKeepsEveryone(r, e, entropy);
      hide Inv, Handled;
    } else {
      hide Inv, CapacityOk, CursorsKept, AfterJoin, AfterLeave, AfterDisconnect, AfterStartGame, AfterKick, AfterSetPlayerLimit,
        AfterSetGameSettings, AfterSetGamePreset, AfterReady, AfterPresence, AfterChat, AfterTransferOwner, AfterReturnToWaiting;
      if e.kind.Ready? {
        ReadyKeepsCursors(r, e.player, e.kind.ready, e.at);
      } else if e.kind.Presence? {
        PresenceKeepsCursors(r, e.player, e.kind.afk, e.at);
      } else if TouchesOneParticipant(e.kind) {
        TalkKeepsCursors(r, e, entropy);
      } else if IsAdministration(e.kind) {
        AdministrationKeepsCursors(r, e, entropy);
      } else if e.kind.Join? {
        JoinKeepsCursors(r, e.player, e.kind, e.at, entropy);
      } else if e.kind.StartGame? {
        StartKeepsCursors(r, e.player, e.at, entropy);
      } else if e.kind.Leave? {
        LeaveKeepsCursors(r, e.player, e.at);
      } else {
        DisconnectKeepsCursors(r, e.player, e.at);
      }
    }
  }

  lemma SequenceSets(s: Room, q: Id, sequence: nat, p: Id)
    requires forall x :: x in s.players ==> x !in s.spectators
    ensures LastSequence(WithSequence(s, q, sequence), p) ==
      if p == q && LastSequence(s, p).Some? then Some(sequence) else LastSequence(s, p)
  {
    var t := WithSequence(s, q, sequence);
    if q in s.players {
      assert t.players == s.players[q := s.players[q].(lastSequence := sequence)] && t.spectators == s.spectators;
    } else if q in s.spectators {
      assert t.spectators == s.spectators[q := s.spectators[q].(lastSequence := sequence)] && t.players == s.players;
    } else {
      assert t == s;
    }
    hide WithSequence;
  }

  lemma CursorMoves(r: Room, s: Room, p: Id, q: Id, sequence: nat)
    requires CursorsKept(r, s) && LastSequence(r, p).Some? && LastSequence(WithSequence(s, q, sequence), p).Some?
    requires forall x :: x in s.players ==> x !in s.spectators
    ensures LastSequence(WithSequence(s, q, sequence), p).value == if p == q then sequence else LastSequence(r, p).value
    ensures LastSequence(s, p) == LastSequence(r, p)
  {
    hide WithSequence;
    SequenceSets(s, q, sequence, p);
  }

  predicate AppliesFrom(r: Room, e: Event, outcome: Outcome, p: Id) {
    outcome.Accepted? && e.player == p && e.sequence > 0
  }

  // One event moves a seat's cursor exactly when it is an accepted sequenced event of that seat,
  // and then to its number, which is above the cursor.
  lemma StepMovesCursor(r: Room, input: Input, p: Id)
    requires Inv(r) && LastSequence(r, p).Some? && LastSequence(After(r, input), p).Some?
    ensures var e := input.event;
      var applied := AppliesFrom(r, e, Step(r, e, input.entropy), p);
      && LastSequence(After(r, input), p).value == (if applied then e.sequence else LastSequence(r, p).value)
      && (applied ==> e.sequence > LastSequence(r, p).value)
  {
    var e := input.event;
    if Step(r, e, input.entropy).Accepted? {
      hide Inv, Handled, WithSequence, LastSequence;
      HandledKeepsCursors(r, e, input.entropy);
      HandledKeepsInv(r, e, input.entropy);
      var s := Handled(r, e, input.entropy).room;
      NoDoubleSeats(s);
      hide CursorsKept;
      if e.sequence > 0 {
        CursorMoves(r, s, p, e.player, e.sequence);
      } else {
        CursorStays(r, s, p);
      }
    } else {
      hide Inv, Step;
    }
  }

  lemma CursorStays(r: Room, s: Room, p: Id)
    requires CursorsKept(r, s) && LastSequence(r, p).Some? && LastSequence(s, p).Some?
    requires forall x :: x in s.players ==> x !in s.spectators
    ensures LastSequence(s, p) == LastSequence(r, p)
  {
  }

  lemma NoDoubleSeats(r: Room)
    requires Inv(r)
    ensures forall x :: x in r.players ==> x !in r.spectators
  {
    assert CapacityOk(r);
    hide Inv;
  }

  // The numbers of p's events a run applies, in order.
  ghost function Applied(r: Room, inputs: seq<Input>, p: Id): seq<nat> {
    if inputs == [] then []
    else
      var init, last := inputs[..|inputs| - 1], inputs[|inputs| - 1];
      var before := Run(r, init);
      Applied(r, init, p) +
        if AppliesFrom(before, last.event, Step(before, last.event, last.entropy), p) then [last.event.sequence] else []
  }

  ghost predicate SeatedThroughout(r: Room, inputs: seq<Input>, p: Id) {
    forall i :: 0 <= i <= |inputs| ==> LastSequence(Run(r, inputs[..i]), p).Some?
  }

  predicate IncreasingFrom(start: nat, s: seq<nat>) {
    && (forall i, j :: 0 <= i < j < |s| ==> s[i] < s[j])
    && (forall i :: 0 <= i < |s| ==> start < s[i])
  }

  function LastOf(start: nat, s: seq<nat>): nat {
    if s == [] then start else s[|s| - 1]
  }

  lemma IncreasingGrows(start: nat, s: seq<nat>, x: nat)
    requires IncreasingFrom(start, s) && LastOf(start, s) < x
    ensures IncreasingFrom(start, s + [x]) && LastOf(start, s + [x]) == x
  {
  }

  // While a participant keeps their seat, the numbers of their applied events strictly increase,
  // all above where the cursor stood, and the cursor stands at the last of them.
  lemma {:induction false} AppliedInOrder(r: Room, inputs: seq<Input>, p: Id)
    requires Inv(r) && SeatedThroughout(r, inputs, p) && LastSequence(r, p).Some?
    ensures var start := LastSequence(r, p).value;
      && IncreasingFrom(start, Applied(r, inputs, p))
      && LastSequence(Run(r, inputs), p) == Some(LastOf(start, Applied(r, inputs, p)))
  {
    if inputs == [] {
    } else {
      var init, last := inputs[..|inputs| - 1], inputs[|inputs| - 1];
      assert forall i :: 0 <= i <= |init| ==> init[..i] == inputs[..i];
      assert inputs[..|inputs|] == inputs;
      assert LastSequence(Run(r, inputs), p).Some?;
      hide Inv, Step, LastSequence, AppliesFrom, After;
      AppliedInOrder(r, init, p);
      RunKeepsInv(r, init);
      StepMovesCursor(Run(r, init), last, p);
      var start := LastSequence(r, p).value;
      hide SeatedThroughout, IncreasingFrom, LastOf;
      if AppliesFrom(Run(r, init), last.event, Step(Run(r, init), last.event, last.entropy), p) {
        IncreasingGrows(start, Applied(r, init, p), last.event.sequence);
      } else {
        assert Applied(r, inputs, p) == Applied(r, init, p);
      }
    }
  }

  // A duplicate refusal is given exactly for a number at or below the seat's cursor, and leaves
  // the room as it was.
  lemma DuplicatesAreDecided(r: Room, input: Input)
    requires Inv(r)
    ensures Step(r, input.event, input.entropy) == Rejected(DuplicateClientEvent) <==>
      input.event.sequence > 0 && LastSequence(r, input.event.player).Some? && input.event.sequence <= LastSequence(r, input.event.player).value
    ensures Step(r, input.event, input.entropy).Rejected? ==> After(r, input) == r
  {
    NeverDuplicate(r, input.event, input.entropy);
    hide Inv, Handled, LastSequence;
  }

  lemma NeverDuplicate(r: Room, e: Event, entropy: Entropy)
    ensures Handled(r, e, entropy) != Rejected(DuplicateClientEvent)
  {
    hide ConnectedOwner, Least, NightMaybeResolved, VoteMaybeResolved, ShotResolved, TimedOut, WaitingAgain, GameStartedRoom,
      Validate, ValidateForStart, ShuffledDeck, VotingOpened, GameSettingsForPreset;
  }

  // The status a connection reports for what the room made of an event.
  function StatusOf(outcome: Outcome): Browser.Status {
    match outcome
    case Accepted(_, _) => Browser.Applied
    case Rejected(error) => if error == DuplicateClientEvent then Browser.Duplicate else Browser.Rejected
  }

  // Asked about a numbered event of a seat that stays, the room answers and moves the cursor as the
  // server of the delivery protocol does.
  lemma RoomDecidesLikeServer(r: Room, input: Input, wording: Option<string>)
    requires Inv(r) && input.event.sequence > 0
    requires LastSequence(r, input.event.player).Some? && LastSequence(After(r, input), input.event.player).Some?
    ensures var e := input.event;
      var outcome := Step(r, e, input.entropy);
      Delivery.Decide(LastSequence(r, e.player).value, e.sequence, if outcome.Accepted? then Delivery.RoomAccepts(wording) else Delivery.RoomRefuses)
        == (StatusOf(outcome), LastSequence(After(r, input), e.player).value)
  {
    hide Inv, Step, LastSequence, After;
    StepMovesCursor(r, input, input.event.player);
    DuplicatesAreDecided(r, input);
  }
}
