// Where things come from, over runs: a ballot and a night's choice are the last that player sent, and whoever
// takes a seat again presents the token it was made with (internal/room/state.go).

module Provenance {
  import opened Rules
  import opened Settings
  import opened RoomModel
  import opened RoomInvariant
  import opened RoomRuns
  import opened Outcomes
  import opened Laws
  import opened Acceptance

  ghost predicate IsAccepted(r: Room, input: Input) {
    Step(r, input.event, input.entropy).Accepted?
  }

  // ---- Ballots ----------------------------------------------------------------------------------

  // The vote stays open all the while.
  ghost predicate StaysIn(r: Room, inputs: seq<Input>, phase: Phase) {
    forall i :: 0 <= i <= |inputs| ==> Run(r, inputs[..i]).phase == phase
  }

  lemma StaysBefore(r: Room, inputs: seq<Input>, phase: Phase)
    requires StaysIn(r, inputs, phase) && inputs != []
    ensures StaysIn(r, inputs[..|inputs| - 1], phase)
    ensures Run(r, inputs[..|inputs| - 1]).phase == phase && Run(r, inputs).phase == phase
  {
    hide Run;
    var init := inputs[..|inputs| - 1];
    assert forall i :: 0 <= i <= |init| ==> init[..i] == inputs[..i];
    assert inputs[..|inputs|] == inputs && init[..|init|] == init;
  }

  // The last one this player voted for, or what stood before.
  ghost function LastBallot(r: Room, inputs: seq<Input>, v: Id): Option<Id> {
    if inputs == [] then if v in r.votes then Some(r.votes[v]) else None
    else
      var init, last := inputs[..|inputs| - 1], inputs[|inputs| - 1];
      if last.event.kind.Vote? && last.event.player == v && IsAccepted(Run(r, init), last) then Some(last.event.kind.target)
      else LastBallot(r, init, v)
  }

  // A ballot for someone who has died since is an abstention, and the dead have none.
  ghost predicate IsBallotOf(s: Room, v: Id, last: Option<Id>) {
    && (v in s.votes <==> IsLiving(s.players, v) && last.Some?)
    && (v in s.votes ==> s.votes[v] == if last.value == NO_ID || IsLiving(s.players, last.value) then last.value else NO_ID)
  }

  // What one event makes of the ballots of a vote that stays open.
  ghost predicate BallotsFollow(r: Room, e: Event, s: Room) {
    && s.players.Keys == r.players.Keys
    && (if e.kind.Vote? then s.votes == r.votes[e.player := e.kind.target]
        else if e.kind.Shoot? then e.kind.target in r.players && s.votes == BallotsWithout(r, e.kind.target)
        else s.votes == r.votes)
    && forall p :: p in r.players ==> s.players[p].alive == (r.players[p].alive && !(e.kind.Shoot? && p == e.kind.target))
  }

  lemma OthersKeepBallots(r: Room, e: Event, entropy: Entropy)
    requires Inv(r) && IsActive(r.phase) && !IsPlay(e.kind) && !e.kind.ReturnToWaiting? && Step(r, e, entropy).Accepted?
    ensures var s := Step(r, e, entropy).room;
      && s.votes == r.votes && s.nightActions == r.nightActions && s.players.Keys == r.players.Keys
      && forall p :: p in r.players ==> s.players[p].alive == r.players[p].alive
  {
    hide Inv, Handled, WithSequence, IsDuplicate;
    OtherEventsAreCosmetic(r, e, entropy);
    SequenceTouches(Handled(r, e, entropy).room, e.player, e.sequence);
  }

  lemma VerdictEndsIt(r: Room, votes: Votes, s: Room)
    requires IsVerdict(r, votes, s)
    ensures s.phase != DayVoting
  {
    hide IsChosen, IsOver;
  }

  lemma VoteKeepsOpen(r: Room, e: Event, entropy: Entropy)
    requires Inv(r) && r.phase == DayVoting && (e.kind.Vote? || e.kind.PhaseTimeout?) && Step(r, e, entropy).Accepted?
    requires Step(r, e, entropy).room.phase == DayVoting
    ensures e.kind.Vote? && BallotsFollow(r, e, Step(r, e, entropy).room)
  {
    hide Inv, Step, IsVerdict, Living;
    VoteCountsBallots(r, e, entropy);
    var votes, s := BallotsAfter(r, e), Step(r, e, entropy).room;
    if Living(r.players) <= votes.Keys {
      VerdictEndsIt(r, votes, s);
    }
  }

  lemma ShotKeepsOpen(r: Room, e: Event, entropy: Entropy)
    requires Inv(r) && r.phase == DayVoting && e.kind.Shoot? && Step(r, e, entropy).Accepted?
    requires Step(r, e, entropy).room.phase == DayVoting
    ensures BallotsFollow(r, e, Step(r, e, entropy).room)
  {
    hide Inv, Step, IsVerdict, Living, IsOver, BallotsWithout;
    ShotCounts(r, e, entropy);
    var s, shot := Step(r, e, entropy).room, r.(players := ShotAt(r, e.kind.target));
    if Living(shot.players) <= BallotsWithout(r, e.kind.target).Keys && !IsOver(ShotAt(r, e.kind.target)) {
      VerdictEndsIt(shot, BallotsWithout(r, e.kind.target), s);
    }
  }

  lemma NotNow(r: Room, e: Event, entropy: Entropy)
    requires r.phase == DayVoting && (IsNightChoice(e.kind) || e.kind.StartVote? || e.kind.StartGame?)
    ensures !Step(r, e, entropy).Accepted?
  {
    hide AfterJoin, AfterLeave, AfterDisconnect, AfterReady, AfterPresence, AfterChat, AfterVote, AfterShoot, AfterKick, AfterPhaseTimeout,
      AfterSetGameSettings, AfterSetGamePreset, AfterTransferOwner, AfterSetPlayerLimit, AfterReturnToWaiting, NightMaybeResolved, VotingOpened,
      GameStartedRoom, ShuffledDeck;
  }

  lemma ReturnEndsIt(r: Room, e: Event, entropy: Entropy)
    requires e.kind.ReturnToWaiting? && Step(r, e, entropy).Accepted?
    ensures Step(r, e, entropy).room.phase == Waiting
  {
    hide AfterJoin, AfterLeave, AfterDisconnect, AfterReady, AfterPresence, AfterChat, AfterNightAction, AfterNightPass, AfterStartVote, AfterVote,
      AfterShoot, AfterKick, AfterPhaseTimeout, AfterSetGameSettings, AfterSetGamePreset, AfterTransferOwner, AfterSetPlayerLimit, AfterStartGame,
      SeatsReset, SpectatorsKept, ConnectedOwner;
  }

  // While a vote stays open, a vote sets its sender's ballot, a shot takes its target's and the ballots for them,
  // and nothing else touches one.
  lemma OpenVoteFollows(r: Room, e: Event, entropy: Entropy)
    requires Inv(r) && r.phase == DayVoting && Step(r, e, entropy).Accepted? && Step(r, e, entropy).room.phase == DayVoting
    ensures BallotsFollow(r, e, Step(r, e, entropy).room)
  {
    hide Inv, Step, BallotsFollow;
    if e.kind.Vote? || e.kind.PhaseTimeout? {
      VoteKeepsOpen(r, e, entropy);
    } else if e.kind.Shoot? {
      ShotKeepsOpen(r, e, entropy);
    } else if e.kind.ReturnToWaiting? {
      ReturnEndsIt(r, e, entropy);
    } else if IsNightChoice(e.kind) || e.kind.StartVote? || e.kind.StartGame? {
      NotNow(r, e, entropy);
    } else {
      OthersKeepBallots(r, e, entropy);
      UntouchedBallots(r, e, Step(r, e, entropy).room);
    }
  }

  lemma UntouchedBallots(r: Room, e: Event, s: Room)
    requires !e.kind.Vote? && !e.kind.Shoot? && s.votes == r.votes && s.players.Keys == r.players.Keys
    requires forall p :: p in r.players ==> s.players[p].alive == r.players[p].alive
    ensures BallotsFollow(r, e, s)
  {
  }

  lemma OneMoreBallot(r: Room, s: Room, e: Event, v: Id, last: Option<Id>)
    requires BallotsFollow(r, e, s) && IsBallotOf(r, v, last)
    requires e.kind.Vote? ==> IsLiving(r.players, e.player) && (e.kind.target == NO_ID || IsLiving(r.players, e.kind.target))
    ensures IsBallotOf(s, v, if e.kind.Vote? && e.player == v then Some(e.kind.target) else last)
  {
  }

  lemma BallotsStandClean(r: Room, v: Id)
    requires BallotsOk(r.players, r.votes)
    ensures IsBallotOf(r, v, if v in r.votes then Some(r.votes[v]) else None)
  {
  }

  // Over any run in which the vote stays open, every living player's ballot is the last one they sent.
  lemma {:induction false} BallotsAreTheLastSent(r: Room, inputs: seq<Input>, v: Id)
    requires Inv(r) && StaysIn(r, inputs, DayVoting)
    ensures IsBallotOf(Run(r, inputs), v, LastBallot(r, inputs, v))
    decreases |inputs|
  {
    hide Inv, IsBallotOf, Step, StaysIn, BallotsOk, BallotsFollow;
    if inputs == [] {
      VotingFirst(r, inputs);
      DayIsFair(r);
      BallotsStandClean(r, v);
    } else {
      var init, last := inputs[..|inputs| - 1], inputs[|inputs| - 1];
      StaysBefore(r, inputs, DayVoting);
      BallotsAreTheLastSent(r, init, v);
      RunKeepsInv(r, init);
      var s := Run(r, init);
      if IsAccepted(s, last) {
        OpenVoteFollows(s, last.event, last.entropy);
        if last.event.kind.Vote? {
          BallotIsAcceptedExactly(s, last.event, last.entropy);
        }
        OneMoreBallot(s, Run(r, inputs), last.event, v, LastBallot(r, init, v));
      }
    }
  }

  lemma VotingFirst(r: Room, inputs: seq<Input>)
    requires StaysIn(r, inputs, DayVoting)
    ensures r.phase == DayVoting
  {
    assert inputs[..0] == [];
    assert Run(r, inputs[..0]).phase == DayVoting;
    hide After;
  }

  // ---- Choices ----------------------------------------------------------------------------------

  // The last one this player chose for the night, or what stood before.
  ghost function LastChoice(r: Room, inputs: seq<Input>, v: Id): Option<Id> {
    if inputs == [] then if v in r.nightActions then Some(r.nightActions[v].target) else None
    else
      var init, last := inputs[..|inputs| - 1], inputs[|inputs| - 1];
      if IsNightChoice(last.event.kind) && last.event.player == v && IsAccepted(Run(r, init), last) then Some(ChosenBy(last.event.kind))
      else LastChoice(r, init, v)
  }

  ghost predicate IsChoiceOf(s: Room, v: Id, last: Option<Id>) {
    && (v in s.nightActions <==> last.Some?)
    && (v in s.nightActions ==> s.nightActions[v].target == last.value)
  }

  lemma MorningEndsIt(r: Room, choices: Choices, s: Room)
    requires IsMorningAfter(r, choices, s)
    ensures s.phase != Night
  {
    hide IsOver, IsSought, IsWatchedOver, FindingsOf, Learned;
  }

  // A night that goes on is one that still waits for somebody.
  lemma NightKeepsOpen(r: Room, e: Event, entropy: Entropy)
    requires Inv(r) && r.phase == Night && (IsNightChoice(e.kind) || e.kind.PhaseTimeout?) && Step(r, e, entropy).Accepted?
    requires Step(r, e, entropy).room.phase == Night
    ensures IsNightChoice(e.kind) && ChoicesOf(Step(r, e, entropy).room.nightActions) == ChoicesOf(r.nightActions)[e.player := ChosenBy(e.kind)]
  {
    hide Inv, Step, IsMorningAfter, IsMissing, ChoicesOf, Filled;
    NightCountsChoices(r, e, entropy);
    var choices, s := ChoicesAfter(r, e), Step(r, e, entropy).room;
    if forall p :: !IsMissing(r.players, choices, p) {
      MorningEndsIt(r, choices, s);
    } else if e.kind.PhaseTimeout? {
      var p :| IsMissing(r.players, choices, p);
      NobodyIsMissing(r.players, ChoicesOf(r.nightActions), p);
    }
  }

  lemma NobodyIsMissing(players: Players, choices: Choices, p: Id)
    ensures !IsMissing(players, Filled(players, choices), p)
  {
  }

  lemma NotAtNight(r: Room, e: Event, entropy: Entropy)
    requires r.phase == Night && (e.kind.Vote? || e.kind.Shoot? || e.kind.StartVote? || e.kind.StartGame?)
    ensures !Step(r, e, entropy).Accepted?
  {
    hide AfterJoin, AfterLeave, AfterDisconnect, AfterReady, AfterPresence, AfterChat, AfterNightAction, AfterNightPass, AfterKick,
      AfterPhaseTimeout, AfterSetGameSettings, AfterSetGamePreset, AfterTransferOwner, AfterSetPlayerLimit, AfterReturnToWaiting, ShotResolved,
      VoteMaybeResolved, VotingOpened, GameStartedRoom, ShuffledDeck;
  }

  // While a night goes on, a choice is its sender's and nothing else touches one.
  lemma OpenNightFollows(r: Room, e: Event, entropy: Entropy)
    requires Inv(r) && r.phase == Night && Step(r, e, entropy).Accepted? && Step(r, e, entropy).room.phase == Night
    ensures ChoicesOf(Step(r, e, entropy).room.nightActions) ==
      if IsNightChoice(e.kind) then ChoicesOf(r.nightActions)[e.player := ChosenBy(e.kind)] else ChoicesOf(r.nightActions)
  {
    hide Inv, Step, ChoicesOf;
    if IsNightChoice(e.kind) || e.kind.PhaseTimeout? {
      NightKeepsOpen(r, e, entropy);
    } else if e.kind.ReturnToWaiting? {
      ReturnEndsIt(r, e, entropy);
    } else if e.kind.Vote? || e.kind.Shoot? || e.kind.StartVote? || e.kind.StartGame? {
      NotAtNight(r, e, entropy);
    } else {
      OthersKeepBallots(r, e, entropy);
    }
  }

  lemma OneMoreChoice(r: Room, s: Room, e: Event, v: Id, last: Option<Id>)
    requires IsChoiceOf(r, v, last)
    requires ChoicesOf(s.nightActions) == if IsNightChoice(e.kind) then ChoicesOf(r.nightActions)[e.player := ChosenBy(e.kind)] else ChoicesOf(r.nightActions)
    ensures IsChoiceOf(s, v, if IsNightChoice(e.kind) && e.player == v then Some(ChosenBy(e.kind)) else last)
  {
    var before, after := ChoicesOf(r.nightActions), ChoicesOf(s.nightActions);
    assert v in r.nightActions <==> v in before;
    assert v in s.nightActions <==> v in after;
  }

  // Over any run in which the night goes on, everybody's choice is the last one they sent.
  lemma {:induction false} ChoicesAreTheLastSent(r: Room, inputs: seq<Input>, v: Id)
    requires Inv(r) && StaysIn(r, inputs, Night)
    ensures IsChoiceOf(Run(r, inputs), v, LastChoice(r, inputs, v))
    decreases |inputs|
  {
    hide Inv, Step, StaysIn, ChoicesOf;
    if inputs != [] {
      var init, last := inputs[..|inputs| - 1], inputs[|inputs| - 1];
      hide IsChoiceOf;
      StaysBefore(r, inputs, Night);
      ChoicesAreTheLastSent(r, init, v);
      RunKeepsInv(r, init);
      if IsAccepted(Run(r, init), last) {
        OpenNightFollows(Run(r, init), last.event, last.entropy);
        OneMoreChoice(Run(r, init), Run(r, inputs), last.event, v, LastChoice(r, init, v));
      }
    }
  }

  // ---- Tokens -----------------------------------------------------------------------------------

  // The token of the seat this participant holds.
  function TokenOf(r: Room, p: Id): Option<Token> {
    if p in r.players then Some(r.players[p].token) else if p in r.spectators then Some(r.spectators[p].token) else None
  }

  // The token drawn when this participant last came as somebody new, or the one held before.
  ghost function TokenDrawn(r: Room, inputs: seq<Input>, p: Id): Option<Token> {
    if inputs == [] then TokenOf(r, p)
    else
      var init, last := inputs[..|inputs| - 1], inputs[|inputs| - 1];
      if IsNewcomer(Run(r, init), last.event, p) && IsAccepted(Run(r, init), last) then Some(last.entropy.token)
      else TokenDrawn(r, init, p)
  }

  lemma SeatKeepsToken(r: Room, e: Event, entropy: Entropy, p: Id)
    requires Inv(r) && Step(r, e, entropy).Accepted?
    ensures var s := Step(r, e, entropy).room;
      TokenOf(s, p).Some? ==> TokenOf(s, p) == if IsNewcomer(r, e, p) then Some(entropy.token) else TokenOf(r, p)
  {
    hide Inv, Step, RoomFollows, LosesSeat, NameAfter, ReadyAfter, ConnectedAfter, ShotAfter, AfkAfter;
    EventsObeyLaws(r, e, entropy);
    var s := Step(r, e, entropy).room;
    assert PlayerFollows(r, e, entropy, s, p) && SpectatorFollows(r, e, entropy, s, p);
    SeatsApart(r, p);
  }

  lemma SeatsApart(r: Room, p: Id)
    requires Inv(r)
    ensures !(p in r.players && p in r.spectators)
  {
  }

  // Over any run, whoever is seated holds the token drawn when they came.
  lemma {:induction false} TokensAreThoseDrawn(r: Room, inputs: seq<Input>, p: Id)
    requires Inv(r)
    ensures var s := Run(r, inputs); TokenOf(s, p).Some? ==> TokenOf(s, p) == TokenDrawn(r, inputs, p)
    decreases |inputs|
  {
    hide Inv, Step, TokenOf, IsNewcomer;
    if inputs != [] {
      var init, last := inputs[..|inputs| - 1], inputs[|inputs| - 1];
      TokensAreThoseDrawn(r, init, p);
      RunKeepsInv(r, init);
      if IsAccepted(Run(r, init), last) {
        SeatKeepsToken(Run(r, init), last.event, last.entropy, p);
      }
    }
  }

  // So after any run a seat is taken again only with the token drawn when it was first taken.
  lemma OnlyItsTokenOpensASeat(r: Room, inputs: seq<Input>, next: Input)
    requires Inv(r) && next.event.kind.Join? && TokenOf(Run(r, inputs), next.event.player).Some? && IsAccepted(Run(r, inputs), next)
    ensures Some(next.event.kind.token) == TokenDrawn(r, inputs, next.event.player) && next.event.kind.token != NO_TOKEN
  {
    hide Inv, Step, Run, MayJoin;
    var s := Run(r, inputs);
    RunKeepsInv(r, inputs);
    TokensAreThoseDrawn(r, inputs, next.event.player);
    AcceptedExactly(s, next.event, next.entropy);
    TokenNeeded(s, next.event.player, next.event.kind, next.entropy);
  }

  lemma TokenNeeded(r: Room, p: Id, kind: EventKind, entropy: Entropy)
    requires kind.Join? && TokenOf(r, p).Some? && MayJoin(r, p, kind, entropy)
    ensures Some(kind.token) == TokenOf(r, p) && kind.token != NO_TOKEN
  {
  }
}
