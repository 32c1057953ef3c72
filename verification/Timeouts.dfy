// Phase timeouts over whole runs: what they bring forward, and when one that has been accepted is
// accepted again.

module Timeouts {
  import opened Rules
  import opened Settings
  import opened RoomModel
  import opened RoomInvariant
  import opened RoomSteps
  import opened RoomRuns
  import opened Ownership

  predicate IsTimeout(input: Input) {
    input.event.kind.PhaseTimeout? && input.event.sequence == 0
  }

  // An accepted timeout moves a game to a later phase.
  lemma TimeoutAdvances(r: Room, input: Input)
    requires Inv(r) && IsTimeout(input) && Step(r, input.event, input.entropy).Accepted?
    ensures IsActive(r.phase) && Later(r, After(r, input)) && Continues(r, After(r, input))
  {
    hide Inv, TimedOut;
    TimedOutContinues(r, input.event.at);
    StampedContinues(r, TimedOut(r, input.event.at), input.event.at);
  }

  lemma TimeoutStartsNow(r: Room, at: int)
    requires IsActive(r.phase)
    ensures TimedOut(r, at).startedAt == at
  {
    hide NightResolved, VoteResolved, AfterDay;
    var expired := Logged(r, PhaseTimedOut(r.phase), at);
    match r.phase
    case Night => ResolvedStartsNow(expired.(nightActions := WithPasses(r.players, r.nightActions)), at);
    case DayVoting => VotedStartsNow(expired.(votes := WithAbstentions(r.players, r.votes)), at);
    case LastWords => DayEndsNow(expired.(lastWords := NO_ID), at);
    case _ =>
  }

  lemma DayEndsNow(r: Room, at: int)
    ensures AfterDay(r, at).startedAt == at
  {
    if IsDecided(r.players) {
      FinishesNow(r, at);
      hide FinishGame, IsDecided;
    } else {
      hide FinishGame, IsDecided;
    }
  }

  lemma FinishesNow(r: Room, at: int)
    ensures FinishGame(r, at).startedAt == at
  {
    hide WinnerOf;
  }

  lemma ResolvedStartsNow(r: Room, at: int)
    ensures NightResolved(r, at).startedAt == at
  {
    hide Victims, Investigated, PrunedVotes, EliminationLog, IsDecided, Slain, WinnerOf;
  }

  lemma VotedStartsNow(r: Room, at: int)
    requires AllLivingVoted(r.players, r.votes)
    ensures VoteResolved(r, at).startedAt == at
  {
    hide AfterDay, Elected, PrunedVotes, Slain, AllLivingVoted;
    var quiet := Logged(r.(votes := map[]), VoteNoExecution, at);
    DayEndsNow(quiet, at);
  }

  // ---- Any four timeouts ----------------------------------------------------------------------

  ghost predicate AcceptsTimeout(r: Room, input: Input) {
    IsTimeout(input) && Step(r, input.event, input.entropy).Accepted?
  }

  // How many timeouts a run accepts, whatever else happens in it.
  ghost function TimeoutsAccepted(r: Room, inputs: seq<Input>): nat {
    if inputs == [] then 0
    else
      var init, last := inputs[..|inputs| - 1], inputs[|inputs| - 1];
      TimeoutsAccepted(r, init) + if AcceptsTimeout(Run(r, init), last) then 1 else 0
  }

  // s is in a later round than r, or at least so many phases on in the same one.
  predicate IsOnBy(r: Room, s: Room, phases: int) {
    s.round > r.round || (s.round == r.round && Rank(s.phase) >= Rank(r.phase) + phases)
  }

  lemma MovesOn(r: Room, s: Room, t: Room, phases: int, later: bool)
    requires IsOnBy(r, s, phases) && Continues(s, t) && (later ==> Later(s, t))
    ensures IsOnBy(r, t, phases + if later then 1 else 0)
  {
    hide EndsAsCounted, DeadStayDead, SameRoles;
  }

  lemma {:induction false} EachTimeoutMovesOn(r: Room, inputs: seq<Input>)
    requires Inv(r) && IsActive(r.phase) && ActiveThroughout(r, inputs) && Run(r, inputs).phase != Waiting
    ensures IsOnBy(r, Run(r, inputs), TimeoutsAccepted(r, inputs))
  {
    if inputs == [] {
      assert IsOnBy(r, r, 0);
    } else {
      var init, last := inputs[..|inputs| - 1], inputs[|inputs| - 1];
      assert forall i :: 0 <= i < |init| ==> init[..i] == inputs[..i];
      assert inputs[..|init|] == init;
      assert IsActive(Run(r, init).phase);
      hide Inv, Step, After, ActiveThroughout, Continues, Later, IsOnBy;
      EachTimeoutMovesOn(r, init);
      RunKeepsInv(r, init);
      StepContinues(Run(r, init), last);
      var accepted := AcceptsTimeout(Run(r, init), last);
      if accepted {
        TimeoutAdvances(Run(r, init), last);
      }
      MovesOn(r, Run(r, init), Run(r, inputs), TimeoutsAccepted(r, init), accepted);
    }
  }

  // With any other events between them, four accepted timeouts always bring a game to a new night or
  // to its end.
  lemma FourTimeoutsTurnTheNight(r: Room, inputs: seq<Input>)
    requires Inv(r) && IsActive(r.phase) && ActiveThroughout(r, inputs) && Run(r, inputs).phase != Waiting
    requires TimeoutsAccepted(r, inputs) >= 4
    ensures Run(r, inputs).round > r.round || Run(r, inputs).phase == Finished
  {
    hide Inv, TimeoutsAccepted, Run, ActiveThroughout;
    EachTimeoutMovesOn(r, inputs);
  }

  // ---- Phases begin at the readings of events -------------------------------------------------

  // What an event does to the clock: nothing, or the phase begins at its reading.
  predicate BeginsAt(r: Room, s: Room, at: int) {
    s.startedAt == at || s.startedAt == r.startedAt
  }

  lemma ActionBeginsAt(r: Room, p: Id, target: Id, at: int)
    requires AfterNightAction(r, p, target, at).Accepted?
    ensures BeginsAt(r, AfterNightAction(r, p, target, at).room, at)
  {
    hide NightMaybeResolved;
    var actions := r.nightActions[p := NightAction(p, target, NightActionForRole(r.players[p].role).value.kind)];
    NightGoesOnFrom(r.(nightActions := actions), at);
  }

  lemma PassBeginsAt(r: Room, p: Id, at: int)
    requires AfterNightPass(r, p, at).Accepted?
    ensures BeginsAt(r, AfterNightPass(r, p, at).room, at)
  {
    hide NightMaybeResolved;
    NightGoesOnFrom(r.(nightActions := r.nightActions[p := NightAction(p, NO_ID, Pass)]), at);
  }

  lemma BallotBeginsAt(r: Room, p: Id, target: Id, at: int)
    requires AfterVote(r, p, target, at).Accepted?
    ensures BeginsAt(r, AfterVote(r, p, target, at).room, at)
  {
    hide VoteMaybeResolved;
    VoteGoesOnFrom(r.(votes := r.votes[p := target]), at);
  }

  lemma PlayBeginsAt(r: Room, e: Event, entropy: Entropy)
    requires IsPlay(e.kind) && !e.kind.Shoot? && Handled(r, e, entropy).Accepted?
    ensures BeginsAt(r, Handled(r, e, entropy).room, e.at)
  {
    hide TimedOut, AfterShoot, AfterJoin, AfterLeave, AfterDisconnect, AfterStartGame, AfterReady, AfterChat, AfterPresence, AfterNightAction, AfterNightPass, AfterVote,
      AfterTransferOwner, AfterKick, AfterSetPlayerLimit, AfterSetGameSettings, AfterSetGamePreset, AfterReturnToWaiting;
    match e.kind
    case NightActionOn(target) => ActionBeginsAt(r, e.player, target, e.at);
    case NightPass => PassBeginsAt(r, e.player, e.at);
    case Vote(target) => BallotBeginsAt(r, e.player, target, e.at);
    case PhaseTimeout => TimeoutStartsNow(r, e.at);
    case StartVote =>
  }

  lemma NightGoesOnFrom(r: Room, at: int)
    ensures BeginsAt(r, NightMaybeResolved(r, at), at)
  {
    hide NightResolved, AllNightActionsSubmitted;
    ResolvedStartsNow(r, at);
  }

  lemma VoteGoesOnFrom(r: Room, at: int)
    ensures BeginsAt(r, VoteMaybeResolved(r, at), at)
  {
    hide VoteResolved, AllLivingVoted;
    if AllLivingVoted(r.players, r.votes) {
      VotedStartsNow(r, at);
    }
  }

  lemma ShotBeginsAt(r: Room, p: Id, target: Id, at: int)
    requires p in r.players
    ensures BeginsAt(r, ShotResolved(r, p, target, at), at)
  {
    var fired := ShotFired(r, p, target, at);
    assert fired.startedAt == r.startedAt;
    hide ShotFired, VoteMaybeResolved, FinishGame, IsDecided;
    FinishesNow(fired, at);
    VoteGoesOnFrom(fired, at);
  }

  lemma AdministrationBeginsAt(r: Room, e: Event, entropy: Entropy)
    requires IsAdministration(e.kind) && Handled(r, e, entropy).Accepted?
    ensures BeginsAt(r, Handled(r, e, entropy).room, e.at)
  {
    hide Validate, ValidateForStart, GameSettingsForPreset, ConnectedOwner, WithoutReadiness, SeatsReset, SpectatorsKept;
  }

  lemma StartBeginsAt(r: Room, p: Id, at: int, entropy: Entropy)
    requires AfterStartGame(r, p, at, entropy).Accepted?
    ensures BeginsAt(r, AfterStartGame(r, p, at, entropy).room, at)
  {
    hide StartRefusal, ValidateForStart, ShuffledDeck, Dealt;
  }

  lemma PresenceBeginsAt(r: Room, e: Event, entropy: Entropy)
    requires Inv(r) && TouchesOneParticipant(e.kind) && Handled(r, e, entropy).Accepted?
    ensures BeginsAt(r, Handled(r, e, entropy).room, e.at)
  {
    hide Inv, Handled, SameCast;
    PresenceIsCosmetic(r, e, entropy);
  }

  lemma JoinBeginsAt(r: Room, p: Id, kind: EventKind, at: int, entropy: Entropy)
    requires kind.Join? && AfterJoin(r, p, kind, at, entropy).Accepted?
    ensures BeginsAt(r, AfterJoin(r, p, kind, at, entropy).room, at)
  {
    hide ConnectedOwner;
  }

  lemma LeaveBeginsAt(r: Room, p: Id, at: int)
    ensures AfterLeave(r, p, at).Accepted? ==> BeginsAt(r, AfterLeave(r, p, at).room, at)
    ensures AfterDisconnect(r, p, at).Accepted? ==> BeginsAt(r, AfterDisconnect(r, p, at).room, at)
  {
    hide ConnectedOwner, Least;
  }

  lemma HandledBeginsAt(r: Room, e: Event, entropy: Entropy)
    requires Inv(r) && Handled(r, e, entropy).Accepted?
    ensures BeginsAt(r, Handled(r, e, entropy).room, e.at)
  {
    hide Inv, BeginsAt, AfterJoin, AfterLeave, AfterDisconnect, AfterStartGame, AfterKick, AfterSetPlayerLimit, AfterSetGameSettings,
      AfterSetGamePreset, AfterReady, AfterPresence, AfterChat, AfterTransferOwner, AfterReturnToWaiting, AfterNightAction,
      AfterNightPass, AfterStartVote, AfterVote, AfterPhaseTimeout, ShotResolved;
    if e.kind.Shoot? {
      ShotBeginsAt(r, e.player, e.kind.target, e.at);
      StampBeginsAt(r, ShotResolved(r, e.player, e.kind.target, e.at), e.at);
    } else if IsPlay(e.kind) {
      PlayBeginsAt(r, e, entropy);
    } else if IsAdministration(e.kind) {
      AdministrationBeginsAt(r, e, entropy);
    } else if TouchesOneParticipant(e.kind) {
      PresenceBeginsAt(r, e, entropy);
    } else if e.kind.Join? {
      JoinBeginsAt(r, e.player, e.kind, e.at, entropy);
    } else if e.kind.StartGame? {
      StartBeginsAt(r, e.player, e.at, entropy);
    } else {
      LeaveBeginsAt(r, e.player, e.at);
    }
  }

  lemma StampBeginsAt(r: Room, s: Room, at: int)
    requires BeginsAt(r, s, at)
    ensures BeginsAt(r, s.(updatedAt := at), at)
  {
  }

  lemma StepBeginsAt(r: Room, input: Input)
    requires Inv(r)
    ensures BeginsAt(r, After(r, input), input.event.at)
  {
    var e := input.event;
    hide Inv, Handled;
    if Step(r, e, input.entropy).Accepted? {
      HandledBeginsAt(r, e, input.entropy);
    }
  }

  // The phase a run ends in began before the run or at the reading of one of its events.
  lemma {:induction false} PhaseBeginsAtAReading(r: Room, inputs: seq<Input>)
    requires Inv(r)
    ensures var s := Run(r, inputs);
      s.startedAt == r.startedAt || exists i :: 0 <= i < |inputs| && inputs[i].event.at == s.startedAt
  {
    if inputs == [] {
    } else {
      var init := inputs[..|inputs| - 1];
      hide Inv, After;
      PhaseBeginsAtAReading(r, init);
      RunKeepsInv(r, init);
      StepBeginsAt(Run(r, init), inputs[|inputs| - 1]);
      var s, t := Run(r, init), Run(r, inputs);
      if t.startedAt == s.startedAt && s.startedAt != r.startedAt {
        var i :| 0 <= i < |init| && init[i].event.at == s.startedAt;
        assert inputs[i] == init[i];
      }
    }
  }

  // ---- The same timeout again -----------------------------------------------------------------

  // A timeout is accepted exactly in a running game, a phase duration or more after its phase began.
  lemma TimeoutIsAcceptedExactly(r: Room, input: Input)
    requires Inv(r) && IsTimeout(input)
    ensures Step(r, input.event, input.entropy).Accepted? <==> IsActive(r.phase) && r.startedAt + r.durations.For(r.phase) <= input.event.at
    ensures IsActive(r.phase) ==> r.durations.For(r.phase) > 0
  {
    assert SettingsOk(r) && ClockOk(r);
    SettingsFacts(r);
    hide Inv, TimedOut, SettingsOk;
  }

  lemma AcceptedStartsNow(r: Room, input: Input)
    requires Inv(r) && AcceptsTimeout(r, input)
    ensures After(r, input).startedAt == input.event.at
  {
    hide Inv, TimedOut;
    TimeoutStartsNow(r, input.event.at);
  }

  // Once accepted, a timeout is accepted again after whatever other events exactly if the phase then
  // running was begun by one of them, at a reading at least the phase's duration before the timeout's.
  lemma TimeoutIsAcceptedAgainExactly(r: Room, input: Input, inputs: seq<Input>)
    requires Inv(r) && AcceptsTimeout(r, input)
    ensures var s := Run(After(r, input), inputs);
      Step(s, input.event, input.entropy).Accepted? <==>
        && IsActive(s.phase)
        && exists i :: 0 <= i < |inputs| && inputs[i].event.at == s.startedAt && inputs[i].event.at + s.durations.For(s.phase) <= input.event.at
  {
    hide Inv, Step, After, Run;
    var s := Run(After(r, input), inputs);
    AfterKeepsInv(r, input);
    AcceptedStartsNow(r, input);
    RunKeepsInv(After(r, input), inputs);
    PhaseBeginsAtAReading(After(r, input), inputs);
    TimeoutIsAcceptedExactly(s, input);
  }

  // So it is never accepted again while the clock does not go back behind it.
  lemma TimeoutIsNeverAcceptedTwice(r: Room, input: Input, inputs: seq<Input>)
    requires Inv(r) && AcceptsTimeout(r, input)
    requires forall i :: 0 <= i < |inputs| ==> inputs[i].event.at >= input.event.at
    ensures Step(Run(After(r, input), inputs), input.event, input.entropy).Rejected?
  {
    hide Inv, Step, After, Run;
    AfterKeepsInv(r, input);
    RunKeepsInv(After(r, input), inputs);
    TimeoutIsAcceptedExactly(Run(After(r, input), inputs), input);
    TimeoutIsAcceptedAgainExactly(r, input, inputs);
  }

  // ---- A clock that goes back -----------------------------------------------------------------

  const CID: Id := Id(3)

  function Call(player: Id, kind: EventKind, at: int): Input {
    Input(Event(player, 0, kind, at), Entropy(7, [0, 0, 0]))
  }

  lemma AfterReaches(r: Room, input: Input)
    requires Reachable(r)
    ensures Reachable(After(r, input))
  {
    hide Reachable, Step;
    if Step(r, input.event, input.entropy).Accepted? {
      StepReaches(r, input.event, input.entropy);
    }
  }

  // A waiting room of Ann's with these players, everyone in ready ready.
  ghost predicate Gathered(r: Room, seated: set<Id>, ready: set<Id>) {
    && Reachable(r) && r.phase == Waiting && r.owner == ANN && r.spectators == map[] && !r.locked
    && r.maxPlayers == DEFAULT_MAX_PLAYERS && r.base == BRIEF && r.settings == StandardGameSettings(BRIEF)
    && r.players.Keys == seated && forall p :: p in ready ==> p in seated && r.players[p].ready
  }

  lemma AnnOpens()
    ensures Gathered(After(NewRoom(BRIEF, 1, 0), Call(ANN, Join("ann", 0, false), 0)), {ANN}, {})
  {
    var r := NewRoom(BRIEF, 1, 0);
    NewRoomReachable(BRIEF, 1, 0);
    AfterReaches(r, Call(ANN, Join("ann", 0, false), 0));
    hide Reachable, ConnectedOwner;
    assert After(r, Call(ANN, Join("ann", 0, false), 0)).players.Keys == {ANN};
  }

  lemma SomeoneJoins(r: Room, p: Id, seated: set<Id>)
    requires Gathered(r, seated, {}) && p !in seated && p != NO_ID && |seated| < DEFAULT_MAX_PLAYERS
    ensures Gathered(After(r, Call(p, Join("guest", 0, false), 0)), seated + {p}, {})
  {
    AfterReaches(r, Call(p, Join("guest", 0, false), 0));
    hide Reachable, ConnectedOwner;
    assert |r.players| == |r.players.Keys|;
  }

  lemma SomeoneIsReady(r: Room, p: Id, seated: set<Id>, ready: set<Id>)
    requires Gathered(r, seated, ready) && p in seated
    ensures Gathered(After(r, Call(p, Ready(true), 0)), seated, ready + {p})
  {
    AfterReaches(r, Call(p, Ready(true), 0));
    hide Reachable;
  }

  lemma AnnMayStartThree(r: Room)
    requires Gathered(r, {ANN, BOB, CID}, {BOB, CID})
    ensures StartRefusal(r, ANN, [0, 0, 0]) == None && |r.players| == 3
    ensures ValidateForStart(r.settings, r.maxPlayers, r.base) == Ok(BRIEF)
  {
    hide Reachable, GameSettingsForPreset;
    PresetsAreStartable(Standard, BRIEF, DEFAULT_MAX_PLAYERS);
    assert |r.players| == |r.players.Keys| == 3;
    hide ValidateForStart;
  }

  lemma TheThreeStart(r: Room)
    requires Gathered(r, {ANN, BOB, CID}, {BOB, CID})
    ensures var s := After(r, Call(ANN, StartGame, 0));
      && Reachable(s) && s.phase == Night && s.round == 1 && s.startedAt == 0 && s.durations == BRIEF
      && s.owner == ANN && s.nightActions == map[] && |s.players| == 3
  {
    hide Reachable, StartRefusal, ValidateForStart, ShuffledDeck, Sorted, IndexOf, GameSettingsForPreset;
    AnnMayStartThree(r);
    AfterReaches(r, Call(ANN, StartGame, 0));
    var s := After(r, Call(ANN, StartGame, 0));
    assert s.players.Keys == r.players.Keys && |s.players| == |s.players.Keys|;
  }

  lemma ThreePlayersStart() returns (r: Room)
    ensures Reachable(r) && r.phase == Night && r.round == 1 && r.startedAt == 0 && r.durations == BRIEF
    ensures r.owner == ANN && r.nightActions == map[] && |r.players| == 3
  {
    hide After, Gathered, Reachable, NewRoom;
    AnnOpens();
    r := After(NewRoom(BRIEF, 1, 0), Call(ANN, Join("ann", 0, false), 0));
    SomeoneJoins(r, BOB, {ANN});
    r := After(r, Call(BOB, Join("guest", 0, false), 0));
    SomeoneJoins(r, CID, {ANN} + {BOB});
    r := After(r, Call(CID, Join("guest", 0, false), 0));
    SomeoneIsReady(r, BOB, {ANN} + {BOB} + {CID}, {});
    r := After(r, Call(BOB, Ready(true), 0));
    SomeoneIsReady(r, CID, {ANN} + {BOB} + {CID}, {} + {BOB});
    r := After(r, Call(CID, Ready(true), 0));
    assert {ANN} + {BOB} + {CID} == {ANN, BOB, CID} && {} + {BOB} + {CID} == {BOB, CID};
    TheThreeStart(r);
    r := After(r, Call(ANN, StartGame, 0));
  }

  // A night of passes takes nobody; in the first one, of three, the day follows.
  lemma QuietNightTurnsToDay(r: Room, at: int)
    requires Inv(r) && r.phase == Night && r.round == 1 && r.nightActions == map[] && |r.players| >= 3
    ensures var s := TimedOut(r, at); s.phase == DayDiscussion && s.owner == r.owner && s.durations == r.durations
  {
    var actions := WithPasses(r.players, map[]);
    assert Victims(actions) == {};
    NobodySlain(r.players);
    FirstNightIsOpen(r);
    hide Inv, WithPasses, Victims, Investigated, EliminationLog, PrunedVotes, Slain, IsDecided;
  }

  lemma FirstNightIsOpen(r: Room)
    requires Inv(r) && r.phase == Night && r.round == 1 && |r.players| >= 3
    ensures !IsDecided(r.players)
  {
    hide Inv, ActionsOk;
    NightParts(r);
    CoreParts(r);
    var k :| k in r.players && r.players[k].role == Killer;
    assert LivingKillers(r.players) == {k} by {
      forall p | p in LivingKillers(r.players) ensures p == k {
        assert r.players[p].role == Killer;
      }
    }
    assert LivingOthers(r.players) == r.players.Keys - {k};
    assert |r.players.Keys - {k}| == |r.players| - 1;
  }

  lemma DayComes(r: Room, input: Input)
    requires Inv(r) && r.phase == Night && r.round == 1 && r.nightActions == map[] && |r.players| >= 3
    requires IsTimeout(input) && r.startedAt + r.durations.For(Night) <= input.event.at
    ensures AcceptsTimeout(r, input)
    ensures var s := After(r, input); Inv(s) && s.phase == DayDiscussion && s.owner == r.owner && s.durations == r.durations
  {
    hide Inv, TimedOut;
    TimeoutIsAcceptedExactly(r, input);
    QuietNightTurnsToDay(r, input.event.at);
    AfterKeepsInv(r, input);
  }

  lemma OwnerOpensVote(r: Room, input: Input)
    requires Inv(r) && r.phase == DayDiscussion && input.event.kind.StartVote? && input.event.player == r.owner && input.event.sequence == 0
    ensures var s := After(r, input);
      Inv(s) && s.phase == DayVoting && s.startedAt == input.event.at && s.durations == r.durations
  {
    hide Inv;
    AfterKeepsInv(r, input);
  }

  // When the owner's event carries an earlier reading than the timeout before it, the same timeout is
  // accepted twice.
  lemma ClockGoingBackAcceptsTwice()
    ensures exists r: Room, input: Input, earlier: Input ::
      && Reachable(r) && AcceptsTimeout(r, input) && earlier.event.at < input.event.at
      && AcceptsTimeout(After(After(r, input), earlier), input)
  {
    hide Inv, Reachable, After, Step;
    var r := ThreePlayersStart();
    var input, earlier := Call(NO_ID, PhaseTimeout, 1), Call(ANN, StartVote, 0);
    ReachableInv(r);
    DayComes(r, input);
    OwnerOpensVote(After(r, input), earlier);
    TimeoutIsAcceptedExactly(After(After(r, input), earlier), input);
  }
}
