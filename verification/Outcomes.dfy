// What comes of what the players chose, by role and by ballot: a night's choices decide who dies and who
// learns what, a vote's ballots decide who is executed, and a deadline only fills in what is missing
// (internal/room/state.go, internal/room/rules.go).

module Outcomes {
  import opened Rules
  import opened Settings
  import opened RoomModel
  import opened RoomInvariant
  import opened RoomSteps
  import opened Nights
  import opened Ballots

  // Whom each player chose for the night, NO_ID being nobody.
  type Choices = map<Id, Id>

  function ChoicesOf(actions: Actions): Choices {
    map p | p in actions :: actions[p].target
  }

  // ---- A night, by role -------------------------------------------------------------------------

  predicate ActsAtNight(players: Players, p: Id) {
    p in players && players[p].alive && players[p].role in {Killer, Detective, Doctor, Escort}
  }

  predicate Aims(players: Players, choices: Choices, role: Role, p: Id, target: Id) {
    p in choices && choices[p] == target && p in players && players[p].role == role
  }

  ghost predicate IsHeld(players: Players, choices: Choices, p: Id) {
    exists e :: Aims(players, choices, Escort, e, p)
  }

  ghost predicate IsWatchedOver(players: Players, choices: Choices, p: Id) {
    exists d :: Aims(players, choices, Doctor, d, p) && !IsHeld(players, choices, d)
  }

  ghost predicate IsSought(players: Players, choices: Choices, p: Id) {
    exists k :: Aims(players, choices, Killer, k, p) && !IsHeld(players, choices, k)
  }

  // A detective nobody holds learns whether the one they chose is the killer.
  ghost function Learned(r: Room, choices: Choices, d: Id): seq<Investigation> {
    if d in choices && choices[d] in r.players && d in r.players && r.players[d].role == Detective && !IsHeld(r.players, choices, d)
    then [Investigation(r.round, choices[d], r.players[choices[d]].name, r.players[choices[d]].role == Killer)]
    else []
  }

  function Alive(players: Players, killers: bool): set<Id> {
    set p | p in players && players[p].alive && (players[p].role == Killer <==> killers)
  }

  // No killer lives, or no more others than killers do.
  predicate IsOver(players: Players) {
    Alive(players, true) == {} || |Alive(players, true)| >= |Alive(players, false)|
  }

  lemma OverIsDecided(players: Players)
    ensures IsOver(players) <==> IsDecided(players)
  {
    assert Alive(players, true) == LivingKillers(players);
    assert Alive(players, false) == LivingOthers(players);
  }

  // The night's choices carried out: who lives, who knows what, and whether the game goes on.
  ghost predicate IsMorningAfter(r: Room, choices: Choices, s: Room) {
    && s.players.Keys == r.players.Keys
    && (forall p :: p in r.players ==>
        (s.players[p].alive <==> r.players[p].alive && !(IsSought(r.players, choices, p) && !IsWatchedOver(r.players, choices, p))))
    && (forall d :: FindingsOf(s.investigations, d) == FindingsOf(r.investigations, d) + Learned(r, choices, d))
    && s.phase == (if IsOver(s.players) then Finished else DayDiscussion) && s.nightActions == map[]
  }

  // What each action is follows from its player's role.
  lemma KindsByRole(players: Players, actions: Actions, p: Id, target: Id)
    requires ActionsOk(players, actions) && target != NO_ID && NO_ID !in players
    ensures Visits(actions, p, Block, target) <==> Aims(players, ChoicesOf(actions), Escort, p, target)
    ensures Visits(actions, p, Protect, target) <==> Aims(players, ChoicesOf(actions), Doctor, p, target)
    ensures Visits(actions, p, Kill, target) <==> Aims(players, ChoicesOf(actions), Killer, p, target)
    ensures Visits(actions, p, Investigate, target) <==> Aims(players, ChoicesOf(actions), Detective, p, target)
  {
    if p in actions {
      assert ActionOk(players, p, actions[p]);
    }
  }

  lemma HeldByRole(players: Players, actions: Actions, p: Id)
    requires ActionsOk(players, actions) && p != NO_ID && NO_ID !in players
    ensures IsKeptHome(actions, p) <==> IsHeld(players, ChoicesOf(actions), p)
  {
    hide ActionsOk, Visits, Aims, ChoicesOf;
    forall e ensures Visits(actions, e, Block, p) <==> Aims(players, ChoicesOf(actions), Escort, e, p) {
      KindsByRole(players, actions, e, p);
    }
  }

  lemma NightByRole(players: Players, actions: Actions, p: Id)
    requires ActionsOk(players, actions) && p != NO_ID && NO_ID !in players
    ensures IsGuarded(actions, p) <==> IsWatchedOver(players, ChoicesOf(actions), p)
    ensures IsAttacked(actions, p) <==> IsSought(players, ChoicesOf(actions), p)
  {
    hide ActionsOk, IsKeptHome, IsHeld, ChoicesOf;
    var choices := ChoicesOf(actions);
    forall x ensures Visits(actions, x, Protect, p) <==> Aims(players, choices, Doctor, x, p)
      ensures Visits(actions, x, Kill, p) <==> Aims(players, choices, Killer, x, p)
      ensures x in actions ==> (IsKeptHome(actions, x) <==> IsHeld(players, choices, x))
    {
      KindsByRole(players, actions, x, p);
      if x in actions {
        ActorIsSeated(players, actions, x);
        HeldByRole(players, actions, x);
      }
    }
    hide Aims;
    assert forall x :: Visits(actions, x, Protect, p) ==> x in actions;
  }

  lemma ActorIsSeated(players: Players, actions: Actions, x: Id)
    requires ActionsOk(players, actions) && x in actions && NO_ID !in players
    ensures x in players && x != NO_ID
  {
    assert ActionOk(players, x, actions[x]);
  }

  lemma LearnedByRole(r: Room, actions: Actions, d: Id)
    requires ActionsOk(r.players, actions) && NO_ID !in r.players
    ensures d in Investigators(actions) <==> |Learned(r, ChoicesOf(actions), d)| == 1
    ensures d in Investigators(actions) ==> Learned(r, ChoicesOf(actions), d) == Finding(r.players, actions[d].target, r.round)
    ensures d !in Investigators(actions) ==> Learned(r, ChoicesOf(actions), d) == []
  {
    if d in actions {
      assert ActionOk(r.players, d, actions[d]);
      ActorIsSeated(r.players, actions, d);
      HeldByRole(r.players, actions, d);
      WordsForNight(actions, d);
      hide Blocked, IsKeptHome, IsHeld, ActionsOk;
    }
  }

  ghost predicate IsFairNight(r: Room) {
    CastOk(r.players) && ActionsOk(r.players, r.nightActions) && NO_ID !in r.players
  }

  lemma NightIsFair(r: Room)
    requires Inv(r) && r.phase == Night
    ensures IsFairNight(r)
  {
    hide Inv, CastOk, ActionsOk;
    NightParts(r);
    CoreParts(r);
  }

  lemma MorningLives(r: Room, at: int, p: Id)
    requires IsFairNight(r) && p in r.players
    ensures var s := NightResolved(r, at); var choices := ChoicesOf(r.nightActions);
      p in s.players && (s.players[p].alive <==>
        r.players[p].alive && !(IsSought(r.players, choices, p) && !IsWatchedOver(r.players, choices, p)))
  {
    hide NightResolved, ActionsOk, CastOk, Victims, IsAttacked, IsGuarded, IsSought, IsWatchedOver, ChoicesOf, Investigated;
    MorningSeats(r, at);
    WordsForNight(r.nightActions, p);
    NightByRole(r.players, r.nightActions, p);
  }

  lemma MorningFindings(r: Room, at: int, d: Id)
    requires IsFairNight(r)
    ensures FindingsOf(NightResolved(r, at).investigations, d) == FindingsOf(r.investigations, d) + Learned(r, ChoicesOf(r.nightActions), d)
  {
    hide NightResolved, ActionsOk, CastOk, Investigated, FindingsOf, Finding, Learned, ChoicesOf, Slain, Victims;
    MorningSeats(r, at);
    FindingsAfter(r.investigations, r.nightActions, r.players, r.round, d);
    LearnedByRole(r, r.nightActions, d);
    hide Investigators;
  }

  lemma MorningPhase(r: Room, at: int)
    ensures var s := NightResolved(r, at);
      s.phase == (if IsOver(s.players) then Finished else DayDiscussion) && s.nightActions == map[] && s.players.Keys == r.players.Keys
  {
    hide Morning, IsDecided, IsOver, WinnerOf;
    MorningIs(r, at);
    OverIsDecided(Morning(r, at).players);
  }

  lemma MorningIs(r: Room, at: int)
    ensures Morning(r, at).nightActions == map[] && Morning(r, at).players.Keys == r.players.Keys
  {
    hide Victims, Investigated, PrunedVotes, EliminationLog;
  }

  // A night resolved is the morning after its choices.
  lemma MorningCameAfter(r: Room, at: int)
    requires IsFairNight(r)
    ensures IsMorningAfter(r, ChoicesOf(r.nightActions), NightResolved(r, at))
  {
    hide NightResolved, IsFairNight, IsSought, IsWatchedOver, FindingsOf, Learned, ChoicesOf, IsOver;
    MorningPhase(r, at);
    forall p | p in r.players
      ensures var s := NightResolved(r, at); var choices := ChoicesOf(r.nightActions);
        p in s.players && (s.players[p].alive <==>
          r.players[p].alive && !(IsSought(r.players, choices, p) && !IsWatchedOver(r.players, choices, p)))
    {
      MorningLives(r, at, p);
    }
    forall d ensures FindingsOf(NightResolved(r, at).investigations, d) == FindingsOf(r.investigations, d) + Learned(r, ChoicesOf(r.nightActions), d) {
      MorningFindings(r, at, d);
    }
  }

  // ---- Choices sent -------------------------------------------------------------------------------

  predicate IsNightChoice(kind: EventKind) {
    kind.NightActionOn? || kind.NightPass?
  }

  function ChosenBy(kind: EventKind): Id {
    if kind.NightActionOn? then kind.target else NO_ID
  }

  // Whose choice the night awaits, and has not got.
  predicate IsMissing(players: Players, choices: Choices, p: Id) {
    ActsAtNight(players, p) && p !in choices
  }

  // With nobody for those missing.
  function Filled(players: Players, choices: Choices): Choices {
    map p | p in choices.Keys + players.Keys && (p in choices || IsMissing(players, choices, p)) ::
      if p in choices then choices[p] else NO_ID
  }

  // What an event makes of the choices: a deadline leaves those sent as they are.
  function ChoicesAfter(r: Room, e: Event): Choices {
    var choices := ChoicesOf(r.nightActions);
    if IsNightChoice(e.kind) then choices[e.player := ChosenBy(e.kind)] else Filled(r.players, choices)
  }

  lemma ActsByRole(players: Players, p: Id)
    ensures HasNightAction(players, p) <==> ActsAtNight(players, p)
  {
  }

  lemma CompleteByRole(players: Players, actions: Actions)
    ensures AllNightActionsSubmitted(players, actions) <==> forall p :: !IsMissing(players, ChoicesOf(actions), p)
  {
    forall p ensures HasNightAction(players, p) <==> ActsAtNight(players, p) {
      ActsByRole(players, p);
    }
    hide HasNightAction, ActsAtNight;
    if forall p :: !IsMissing(players, ChoicesOf(actions), p) {
      forall p | p in players && HasNightAction(players, p) ensures p in actions {
        assert !IsMissing(players, ChoicesOf(actions), p);
      }
    } else {
      var p :| IsMissing(players, ChoicesOf(actions), p);
      assert ActsAtNight(players, p);
      ActorIsAPlayer(players, p);
    }
  }

  lemma ActorIsAPlayer(players: Players, p: Id)
    requires ActsAtNight(players, p)
    ensures p in players
  {
  }

  // A night choice accepted is an action recorded as chosen, and the night resolved if that was the last one.
  ghost predicate Acted(r: Room, p: Id, target: Id, acted: Room, outcome: Outcome, at: int) {
    && r.phase == Night && acted == r.(nightActions := acted.nightActions) && IsFairNight(acted)
    && acted.nightActions.Keys == r.nightActions.Keys + {p}
    && ChoicesOf(acted.nightActions) == ChoicesOf(r.nightActions)[p := target]
    && outcome == Accept(NightMaybeResolved(acted, at), at)
  }

  lemma ActionActs(r: Room, p: Id, target: Id, at: int) returns (acted: Room)
    requires Inv(r) && AfterNightAction(r, p, target, at).Accepted?
    ensures Acted(r, p, target, acted, AfterNightAction(r, p, target, at), at)
  {
    hide Inv, NightMaybeResolved, CastOk, ActionsOk;
    NightIsFair(r);
    var action := NightAction(p, target, NightActionForRole(r.players[p].role).value.kind);
    assert ActionOk(r.players, p, action);
    OneMoreActionOk(r.players, r.nightActions, p, action);
    acted := r.(nightActions := r.nightActions[p := action]);
    hide ActionOk;
  }

  lemma PassActs(r: Room, p: Id, at: int) returns (acted: Room)
    requires Inv(r) && AfterNightPass(r, p, at).Accepted?
    ensures Acted(r, p, NO_ID, acted, AfterNightPass(r, p, at), at)
  {
    hide Inv, NightMaybeResolved, CastOk, ActionsOk;
    NightIsFair(r);
    var action := NightAction(p, NO_ID, Pass);
    assert ActionOk(r.players, p, action);
    OneMoreActionOk(r.players, r.nightActions, p, action);
    acted := r.(nightActions := r.nightActions[p := action]);
    hide ActionOk;
  }

  lemma ChoiceActs(r: Room, e: Event, entropy: Entropy) returns (acted: Room)
    requires Inv(r) && IsNightChoice(e.kind) && Handled(r, e, entropy).Accepted?
    ensures Acted(r, e.player, ChosenBy(e.kind), acted, Handled(r, e, entropy), e.at)
  {
    hide Inv, Acted, AfterNightAction, AfterNightPass;
    if e.kind.NightPass? {
      acted := PassActs(r, e.player, e.at);
    } else {
      acted := ActionActs(r, e.player, e.kind.target, e.at);
    }
  }

  // ---- What an event makes of a night ---------------------------------------------------------------

  // The choices decide the night if none is missing, and stand otherwise.
  ghost predicate NightFollows(r: Room, choices: Choices, s: Room) {
    if forall p :: !IsMissing(r.players, choices, p) then IsMorningAfter(r, choices, s)
    else
      && s.phase == Night && ChoicesOf(s.nightActions) == choices && s.investigations == r.investigations
      && s.players.Keys == r.players.Keys && forall p :: p in r.players ==> s.players[p].alive == r.players[p].alive
  }

  lemma ResolvedFollows(acted: Room, at: int)
    requires IsFairNight(acted) && acted.phase == Night
    ensures NightFollows(acted, ChoicesOf(acted.nightActions), NightMaybeResolved(acted, at))
  {
    hide IsFairNight, NightResolved, IsMorningAfter, AllNightActionsSubmitted, IsMissing, ChoicesOf;
    CompleteByRole(acted.players, acted.nightActions);
    MorningCameAfter(acted, at);
  }

  // Nothing in the account of a night depends on what else is recorded of the room before it.
  lemma SameNight(r: Room, acted: Room, choices: Choices, s: Room)
    requires NightFollows(acted, choices, s) && acted.players == r.players && acted.investigations == r.investigations && acted.round == r.round
    ensures NightFollows(r, choices, s)
  {
    hide IsSought, IsWatchedOver, IsOver, FindingsOf, IsMissing;
    assert forall d :: Learned(r, choices, d) == Learned(acted, choices, d);
    hide Learned;
  }

  // The last touches to an accepted event leave all that as it is.
  lemma TouchedNight(r: Room, choices: Choices, s: Room, t: Room)
    requires NightFollows(r, choices, s)
    requires t.phase == s.phase && t.nightActions == s.nightActions && t.investigations == s.investigations
    requires t.players.Keys == s.players.Keys
    requires forall p :: p in s.players ==> t.players[p].alive == s.players[p].alive && t.players[p].role == s.players[p].role
    ensures NightFollows(r, choices, t)
  {
    hide IsSought, IsWatchedOver, FindingsOf, Learned, IsMissing, IsOver;
    SameLivesSameEnd(s.players, t.players);
  }

  lemma SequenceTouches(s: Room, p: Id, n: nat)
    ensures var t := WithSequence(s, p, n);
      && t.phase == s.phase && t.nightActions == s.nightActions && t.investigations == s.investigations && t.votes == s.votes && t.lastWords == s.lastWords
      && t.players.Keys == s.players.Keys
      && forall q :: q in s.players ==> t.players[q].alive == s.players[q].alive && t.players[q].role == s.players[q].role
  {
    if p in s.players {
      assert WithSequence(s, p, n).players == s.players[p := s.players[p].(lastSequence := n)];
    }
  }

  lemma ExpiredNight(r: Room, at: int)
    requires Inv(r) && r.phase == Night
    ensures NightFollows(r, ChoicesAfter(r, Event(NO_ID, 0, PhaseTimeout, at)), TimedOut(r, at))
  {
    hide Inv, NightResolved, NightFollows, IsFairNight, WithPasses;
    NightIsFair(r);
    var filled := Logged(r, PhaseTimedOut(r.phase), at).(nightActions := WithPasses(r.players, r.nightActions));
    FilledIsFair(r, filled);
    PassesFill(r, at);
    ResolvedFollows(filled, at);
    SameNight(r, filled, ChoicesOf(filled.nightActions), NightResolved(filled, at));
  }

  lemma FilledIsFair(r: Room, filled: Room)
    requires IsFairNight(r) && filled.players == r.players && filled.nightActions == WithPasses(r.players, r.nightActions)
    ensures IsFairNight(filled) && AllNightActionsSubmitted(filled.players, filled.nightActions)
  {
    hide CastOk, ActionsOk, WithPasses, AllNightActionsSubmitted;
    PassesAreOk(r.players, r.nightActions);
  }

  lemma PassesFill(r: Room, at: int)
    ensures ChoicesOf(WithPasses(r.players, r.nightActions)) == ChoicesAfter(r, Event(NO_ID, 0, PhaseTimeout, at))
  {
    forall p ensures HasNightAction(r.players, p) <==> ActsAtNight(r.players, p) {
      ActsByRole(r.players, p);
    }
    forall p | ActsAtNight(r.players, p) ensures p in r.players {
    }
    hide HasNightAction, ActsAtNight;
  }

  // Every choice sent counts as sent: after an accepted action, pass or timeout of the night, the choices so
  // far, with this one or with nobody for those missing, decide it if none is missing, and stand otherwise.
  lemma NightCountsChoices(r: Room, e: Event, entropy: Entropy)
    requires Inv(r) && r.phase == Night && (IsNightChoice(e.kind) || e.kind.PhaseTimeout?) && Step(r, e, entropy).Accepted?
    ensures NightFollows(r, ChoicesAfter(r, e), Step(r, e, entropy).room)
  {
    hide Inv, NightFollows, NightMaybeResolved, TimedOut, ChoicesAfter, IsFairNight, WithSequence;
    var s: Room;
    if IsNightChoice(e.kind) {
      var acted := ChoiceActs(r, e, entropy);
      s := NightMaybeResolved(acted, e.at);
      hide Handled;
      ChoiceFollows(r, e, acted);
    } else {
      s := TimedOut(r, e.at);
      ExpiredNight(r, e.at);
      SameExpiry(r, e);
    }
    TouchedNight(r, ChoicesAfter(r, e), s, s.(updatedAt := e.at));
    SequenceTouches(s.(updatedAt := e.at), e.player, e.sequence);
    TouchedNight(r, ChoicesAfter(r, e), s, Step(r, e, entropy).room);
  }

  lemma SameExpiry(r: Room, e: Event)
    requires e.kind.PhaseTimeout?
    ensures ChoicesAfter(r, e) == ChoicesAfter(r, Event(NO_ID, 0, PhaseTimeout, e.at))
  {
  }

  lemma ChoiceFollows(r: Room, e: Event, acted: Room)
    requires IsNightChoice(e.kind) && acted == r.(nightActions := acted.nightActions) && IsFairNight(acted) && acted.phase == Night
    requires ChoicesOf(acted.nightActions) == ChoicesOf(r.nightActions)[e.player := ChosenBy(e.kind)]
    ensures NightFollows(r, ChoicesAfter(r, e), NightMaybeResolved(acted, e.at))
  {
    hide NightFollows, IsFairNight, NightMaybeResolved, ChoicesOf;
    ResolvedFollows(acted, e.at);
    SameNight(r, acted, ChoicesOf(acted.nightActions), NightMaybeResolved(acted, e.at));
  }

  // Exactly the living killer, detective, doctor and escort have a choice, of anyone living or nobody; of
  // themselves only the doctor.
  lemma NightChoiceIsAcceptedExactly(r: Room, e: Event, entropy: Entropy)
    requires Inv(r) && IsNightChoice(e.kind)
    ensures Step(r, e, entropy).Accepted? <==>
      && !IsDuplicate(r, e) && r.phase == Night && ActsAtNight(r.players, e.player)
      && (e.kind.NightActionOn? ==>
          IsLiving(r.players, e.kind.target) && (e.kind.target == e.player ==> r.players[e.player].role == Doctor))
  {
    NobodyIsSeated(r);
    hide Inv, Handled, IsDuplicate, WithSequence, ActsAtNight;
    if e.kind.NightPass? {
      PassIsAcceptedExactly(r, e, entropy);
    } else {
      ActionIsAcceptedExactly(r, e, entropy);
    }
  }

  lemma PassIsAcceptedExactly(r: Room, e: Event, entropy: Entropy)
    requires e.kind.NightPass?
    ensures Handled(r, e, entropy).Accepted? <==> r.phase == Night && ActsAtNight(r.players, e.player)
  {
    hide NightMaybeResolved;
  }

  lemma ActionIsAcceptedExactly(r: Room, e: Event, entropy: Entropy)
    requires e.kind.NightActionOn? && NO_ID !in r.players
    ensures Handled(r, e, entropy).Accepted? <==>
      && r.phase == Night && ActsAtNight(r.players, e.player) && IsLiving(r.players, e.kind.target)
      && (e.kind.target == e.player ==> r.players[e.player].role == Doctor)
  {
    hide NightMaybeResolved;
  }

  lemma NobodyIsSeated(r: Room)
    requires Inv(r)
    ensures NO_ID !in r.players && NO_ID !in r.spectators
  {
  }

  // ---- A vote -------------------------------------------------------------------------------------

  // The living who named t.
  function Naming(players: Players, votes: Votes, t: Id): set<Id> {
    set v | v in votes && v in players && players[v].alive && votes[v] == t
  }

  // More of the living named t than anyone else.
  ghost predicate IsChosen(players: Players, votes: Votes, t: Id) {
    && t != NO_ID && Naming(players, votes, t) != {}
    && forall u :: u != NO_ID && u != t ==> |Naming(players, votes, u)| < |Naming(players, votes, t)|
  }

  // Everyone living has voted: whoever is chosen is executed and has the last words, or nobody is.
  ghost predicate IsVerdict(r: Room, votes: Votes, s: Room) {
    && s.players.Keys == r.players.Keys
    && (forall t :: s.phase == LastWords && s.lastWords == t <==> IsChosen(r.players, votes, t))
    && (forall p :: p in r.players ==> (s.players[p].alive <==> r.players[p].alive && !IsChosen(r.players, votes, p)))
    && (s.phase != LastWords ==> s.phase == if IsOver(r.players) then Finished else Night)
    && s.investigations == r.investigations
  }

  lemma NamingIsTally(players: Players, votes: Votes, t: Id)
    requires BallotsOk(players, votes)
    ensures |Naming(players, votes, t)| == Tally(PrunedVotes(votes, players), t)
  {
    var pruned := PrunedVotes(votes, players);
    assert pruned == votes;
    assert Naming(players, votes, t) == set v | v in pruned && pruned[v] == t;
  }

  lemma ChosenIsElected(players: Players, votes: Votes, t: Id)
    requires BallotsOk(players, votes)
    ensures IsChosen(players, votes, t) <==> LeadsAlone(PrunedVotes(votes, players), t)
  {
    var pruned := PrunedVotes(votes, players);
    forall u ensures |Naming(players, votes, u)| == Tally(pruned, u) {
      NamingIsTally(players, votes, u);
    }
    hide Naming, BallotsOk, PrunedVotes;
    LeadsEveryone(pruned, t);
    hide Tally, LeadsAlone;
  }

  lemma LeadsEveryone(votes: Votes, t: Id)
    ensures LeadsAlone(votes, t) <==> t != NO_ID && Tally(votes, t) > 0 && forall u :: u != NO_ID && u != t ==> Tally(votes, u) < Tally(votes, t)
  {
    if LeadsAlone(votes, t) {
      forall u | u != NO_ID && u != t ensures Tally(votes, u) < Tally(votes, t) {
        var named := set v | v in votes && votes[v] == u;
        if named != {} {
          var v :| v in named;
          assert Tally(votes, votes[v]) < Tally(votes, t);
        }
      }
    }
  }

  lemma VoteDecides(r: Room, at: int)
    requires BallotsOk(r.players, r.votes) && AllLivingVoted(r.players, r.votes)
    ensures IsVerdict(r, r.votes, VoteResolved(r, at))
  {
    hide Naming, BallotsOk, PrunedVotes, AllLivingVoted, IsOver;
    var pruned := PrunedVotes(r.votes, r.players);
    forall t ensures IsChosen(r.players, r.votes, t) <==> LeadsAlone(pruned, t) {
      ChosenIsElected(r.players, r.votes, t);
    }
    forall t ensures LeadsAlone(pruned, t) <==> t != NO_ID && Elected(pruned) == t {
      ElectedExactly(pruned, t);
    }
    hide IsChosen, LeadsAlone;
    OverIsDecided(r.players);
    VerdictPhase(r, at);
    hide VoteResolved;
  }

  lemma ElectedExactly(votes: Votes, t: Id)
    ensures LeadsAlone(votes, t) <==> t != NO_ID && Elected(votes) == t
  {
    if LeadsAlone(votes, t) {
      LeadersAgree(votes, t, Elected(votes));
    }
    hide LeadsAlone;
  }

  lemma DayEndsAs(r: Room, at: int)
    ensures var s := AfterDay(r, at);
      s.players == r.players && s.investigations == r.investigations && s.phase == if IsDecided(r.players) then Finished else Night
  {
    hide IsDecided, FinishGame;
    FinishLeavesLives(r, at);
  }

  lemma ExecutedAs(r: Room, e: Id, at: int)
    ensures var s := Executed(r, e, at);
      s.phase == LastWords && s.lastWords == e && s.players == Slain(r.players, {e}) && s.investigations == r.investigations
  {
    hide Slain;
  }

  lemma VerdictPhase(r: Room, at: int)
    requires AllLivingVoted(r.players, r.votes)
    ensures var s, e := VoteResolved(r, at), Elected(PrunedVotes(r.votes, r.players));
      if e == NO_ID then s.players == r.players && s.phase == if IsDecided(r.players) then Finished else Night
      else s.phase == LastWords && s.lastWords == e && s.players == Slain(r.players, {e})
    ensures VoteResolved(r, at).investigations == r.investigations
  {
    hide Elected, PrunedVotes, IsDecided, Slain, AfterDay, Executed;
    DayEndsAs(Logged(r.(votes := map[]), VoteNoExecution, at), at);
    ExecutedAs(r, Elected(PrunedVotes(r.votes, r.players)), at);
  }

  // ---- What an event makes of a vote ----------------------------------------------------------------

  // The ballots decide the vote if every living player's is in, and stand otherwise.
  ghost predicate VoteFollows(r: Room, votes: Votes, s: Room) {
    if Living(r.players) <= votes.Keys then IsVerdict(r, votes, s)
    else
      && s.phase == DayVoting && s.votes == votes && s.investigations == r.investigations
      && s.players.Keys == r.players.Keys && forall p :: p in r.players ==> s.players[p].alive == r.players[p].alive
  }

  // A deadline leaves the ballots cast as they are, and gives everyone else living an abstention.
  function BallotsAfter(r: Room, e: Event): Votes {
    if e.kind.Vote? then r.votes[e.player := e.kind.target]
    else map p | p in r.votes.Keys + Living(r.players) :: if p in r.votes then r.votes[p] else NO_ID
  }

  lemma CountedFollows(r: Room, at: int)
    requires BallotsOk(r.players, r.votes) && r.phase == DayVoting && Living(r.players) != {}
    ensures VoteFollows(r, r.votes, VoteMaybeResolved(r, at))
  {
    hide BallotsOk, VoteResolved, IsVerdict, Living;
    if AllLivingVoted(r.players, r.votes) {
      VoteDecides(r, at);
    }
  }

  lemma SameVote(r: Room, counted: Room, votes: Votes, s: Room)
    requires VoteFollows(counted, votes, s) && counted.players == r.players && counted.investigations == r.investigations
    ensures VoteFollows(r, votes, s)
  {
    hide IsChosen, IsOver, Living;
  }

  lemma TouchedVote(r: Room, votes: Votes, s: Room, t: Room)
    requires VoteFollows(r, votes, s)
    requires t.phase == s.phase && t.votes == s.votes && t.lastWords == s.lastWords && t.investigations == s.investigations
    requires t.players.Keys == s.players.Keys
    requires forall p :: p in s.players ==> t.players[p].alive == s.players[p].alive
    ensures VoteFollows(r, votes, t)
  {
    hide IsChosen, IsOver, Living;
  }

  lemma DayIsFair(r: Room)
    requires Inv(r) && IsDay(r.phase)
    ensures BallotsOk(r.players, r.votes) && Living(r.players) != {}
  {
    hide Inv, BallotsOk;
    DayParts(r);
    CoreParts(r);
    hide GameCore;
    SomebodyLives(r.players);
  }

  lemma SomebodyLives(players: Players)
    requires Balanced(players)
    ensures Living(players) != {}
  {
    var p :| p in LivingKillers(players);
    assert p in Living(players);
  }

  lemma BallotCounted(r: Room, e: Event)
    requires Inv(r) && e.kind.Vote? && AfterVote(r, e.player, e.kind.target, e.at).Accepted?
    ensures VoteFollows(r, BallotsAfter(r, e), AfterVote(r, e.player, e.kind.target, e.at).room)
  {
    hide Inv, VoteFollows, VoteMaybeResolved, BallotsOk, Living;
    DayIsFair(r);
    OneMoreBallotOk(r.players, r.votes, e.player, e.kind.target);
    var counted := r.(votes := r.votes[e.player := e.kind.target]);
    CountedFollows(counted, e.at);
    SameVote(r, counted, counted.votes, VoteMaybeResolved(counted, e.at));
    TouchedVote(r, counted.votes, VoteMaybeResolved(counted, e.at), VoteMaybeResolved(counted, e.at).(updatedAt := e.at));
  }

  lemma AbstentionsOk(players: Players, votes: Votes)
    requires BallotsOk(players, votes)
    ensures BallotsOk(players, WithAbstentions(players, votes)) && AllLivingVoted(players, WithAbstentions(players, votes))
  {
  }

  lemma ExpiredVote(r: Room, e: Event)
    requires Inv(r) && r.phase == DayVoting && e.kind.PhaseTimeout?
    ensures VoteFollows(r, BallotsAfter(r, e), TimedOut(r, e.at))
  {
    hide Inv, VoteFollows, VoteResolved, BallotsOk, Living;
    DayIsFair(r);
    AbstentionsOk(r.players, r.votes);
    var counted := Logged(r, PhaseTimedOut(r.phase), e.at).(votes := WithAbstentions(r.players, r.votes));
    CountedFollows(counted, e.at);
    SameVote(r, counted, counted.votes, VoteResolved(counted, e.at));
  }

  // Every ballot counts as cast: after an accepted vote or timeout of a voting phase, the ballots so far, with
  // this one or with abstentions for those missing, decide it if none is missing, and stand otherwise.
  lemma VoteCountsBallots(r: Room, e: Event, entropy: Entropy)
    requires Inv(r) && r.phase == DayVoting && (e.kind.Vote? || e.kind.PhaseTimeout?) && Step(r, e, entropy).Accepted?
    ensures VoteFollows(r, BallotsAfter(r, e), Step(r, e, entropy).room)
  {
    hide Inv, VoteFollows, AfterVote, TimedOut, BallotsAfter, WithSequence;
    var s := Handled(r, e, entropy).room;
    if e.kind.Vote? {
      BallotCounted(r, e);
    } else {
      ExpiredVote(r, e);
      TouchedVote(r, BallotsAfter(r, e), TimedOut(r, e.at), s);
    }
    SequenceTouches(s, e.player, e.sequence);
    TouchedVote(r, BallotsAfter(r, e), s, Step(r, e, entropy).room);
  }

  // ---- A shot ---------------------------------------------------------------------------------------

  // The target dies, their ballot goes, and ballots for them become abstentions.
  function ShotAt(r: Room, target: Id): Players
    requires target in r.players
  {
    r.players[target := r.players[target].(alive := false)]
  }

  function BallotsWithout(r: Room, target: Id): Votes {
    map v | v in r.votes && v != target :: if r.votes[v] == target then NO_ID else r.votes[v]
  }

  // A shot takes its target and nobody else, unless it ends the game or completes a vote.
  ghost predicate ShotFollows(r: Room, target: Id, s: Room)
    requires target in r.players
  {
    if IsOver(ShotAt(r, target)) || r.phase == DayDiscussion then
      && s.phase == (if IsOver(ShotAt(r, target)) then Finished else DayDiscussion) && s.players.Keys == r.players.Keys
      && s.investigations == r.investigations
      && forall p :: p in r.players ==> (s.players[p].alive <==> r.players[p].alive && p != target)
    else VoteFollows(r.(players := ShotAt(r, target)), BallotsWithout(r, target), s)
  }

  // The same lives and roles.
  ghost predicate SameLives(a: Players, b: Players) {
    a.Keys == b.Keys && forall p :: p in a ==> a[p].alive == b[p].alive && a[p].role == b[p].role
  }

  lemma SameNaming(a: Players, b: Players, votes: Votes)
    requires SameLives(a, b)
    ensures Living(a) == Living(b) && forall t :: Naming(a, votes, t) == Naming(b, votes, t)
  {
    assert forall t :: Naming(a, votes, t) == Naming(b, votes, t);
  }

  lemma SameChosen(a: Players, b: Players, votes: Votes)
    requires forall t :: Naming(a, votes, t) == Naming(b, votes, t)
    ensures forall t :: IsChosen(a, votes, t) <==> IsChosen(b, votes, t)
  {
    hide Naming;
    forall t ensures IsChosen(a, votes, t) <==> IsChosen(b, votes, t) {
    }
  }

  lemma SameLivesSameVote(r: Room, counted: Room, votes: Votes, s: Room)
    requires VoteFollows(counted, votes, s) && SameLives(counted.players, r.players) && counted.investigations == r.investigations
    ensures VoteFollows(r, votes, s)
  {
    hide IsChosen, IsOver, Living, Naming;
    SameNaming(r.players, counted.players, votes);
    SameChosen(r.players, counted.players, votes);
    SameLivesSameEnd(r.players, counted.players);
  }

  lemma SameLivesSameEnd(a: Players, b: Players)
    requires SameLives(a, b)
    ensures IsOver(a) <==> IsOver(b)
  {
    assert Alive(a, true) == Alive(b, true) && Alive(a, false) == Alive(b, false);
  }

  lemma ShotTakesTarget(r: Room, p: Id, target: Id, at: int)
    requires BallotsOk(r.players, r.votes) && p in r.players && IsLiving(r.players, target) && target != p && target != NO_ID
    ensures var fired := ShotFired(r, p, target, at);
      && SameLives(fired.players, ShotAt(r, target)) && fired.votes == BallotsWithout(r, target) && fired.phase == r.phase
      && BallotsOk(fired.players, fired.votes) && fired.investigations == r.investigations
  {
    var fired := ShotFired(r, p, target, at);
    assert SameLives(fired.players, ShotAt(r, target));
    assert fired.votes == BallotsWithout(r, target);
  }

  lemma UndecidedLive(players: Players)
    requires !IsDecided(players)
    ensures Living(players) != {}
  {
    var p :| p in LivingKillers(players);
    assert p in Living(players);
  }

  lemma FinishLeavesLives(r: Room, at: int)
    ensures FinishGame(r, at).phase == Finished && FinishGame(r, at).players == r.players && FinishGame(r, at).investigations == r.investigations
  {
    hide WinnerOf;
  }

  lemma ShotSettlesAs(r: Room, fired: Room, target: Id, at: int)
    requires target in r.players && IsDay(r.phase) && fired.phase == r.phase
    requires SameLives(fired.players, ShotAt(r, target)) && fired.votes == BallotsWithout(r, target) && BallotsOk(fired.players, fired.votes)
      && fired.investigations == r.investigations
    ensures ShotFollows(r, target, ShotSettled(fired, at))
  {
    hide BallotsOk, IsOver, IsDecided, FinishGame, VoteMaybeResolved, VoteFollows, BallotsWithout;
    SameLivesSameEnd(fired.players, ShotAt(r, target));
    OverIsDecided(fired.players);
    if IsDecided(fired.players) {
      FinishLeavesLives(fired, at);
    } else if r.phase == DayVoting {
      UndecidedLive(fired.players);
      CountedFollows(fired, at);
      SameLivesSameVote(r.(players := ShotAt(r, target)), fired, fired.votes, VoteMaybeResolved(fired, at));
    }
  }

  lemma TouchedShot(r: Room, target: Id, s: Room, t: Room)
    requires target in r.players && ShotFollows(r, target, s)
    requires t.phase == s.phase && t.votes == s.votes && t.lastWords == s.lastWords && t.investigations == s.investigations
    requires t.players.Keys == s.players.Keys
    requires forall p :: p in s.players ==> t.players[p].alive == s.players[p].alive
    ensures ShotFollows(r, target, t)
  {
    hide VoteFollows, IsOver, ShotAt, BallotsWithout;
    if !IsOver(ShotAt(r, target)) && r.phase != DayDiscussion {
      TouchedVote(r.(players := ShotAt(r, target)), BallotsWithout(r, target), s, t);
    }
  }

  // An accepted shot takes the one it names.
  lemma ShotCounts(r: Room, e: Event, entropy: Entropy)
    requires Inv(r) && e.kind.Shoot? && Step(r, e, entropy).Accepted?
    ensures IsLiving(r.players, e.kind.target) && ShotFollows(r, e.kind.target, Step(r, e, entropy).room)
  {
    hide Inv, ShotSettled, ShotFired, BallotsOk, ShotFollows, BallotsWithout, ShotAt, SameLives, WithSequence;
    var p, target, at := e.player, e.kind.target, e.at;
    var s := Handled(r, e, entropy).room;
    DayIsFair(r);
    ShotTakesTarget(r, p, target, at);
    ShotSettlesAs(r, ShotFired(r, p, target, at), target, at);
    TouchedShot(r, target, ShotResolved(r, p, target, at), s);
    SequenceTouches(s, p, e.sequence);
    TouchedShot(r, target, s, Step(r, e, entropy).room);
  }

  // Every living player may vote, for anyone living or nobody; and the living shooter with a shot left may shoot
  // anyone else living, by day.
  lemma BallotIsAcceptedExactly(r: Room, e: Event, entropy: Entropy)
    requires Inv(r) && (e.kind.Vote? || e.kind.Shoot?)
    ensures Step(r, e, entropy).Accepted? <==>
      && !IsDuplicate(r, e) && IsLiving(r.players, e.player)
      && (e.kind.Vote? ==> r.phase == DayVoting && (e.kind.target == NO_ID || IsLiving(r.players, e.kind.target)))
      && (e.kind.Shoot? ==>
          && IsDay(r.phase) && r.players[e.player].role == Shooter && !r.players[e.player].shooterUsed
          && IsLiving(r.players, e.kind.target) && e.kind.target != e.player)
  {
    hide Inv, VoteMaybeResolved, ShotResolved, IsDuplicate, WithSequence, AfterJoin, AfterLeave, AfterDisconnect, AfterReady, AfterStartGame, AfterChat,
      AfterNightAction, AfterNightPass, AfterStartVote, AfterTransferOwner, AfterKick, AfterSetPlayerLimit, AfterSetGameSettings, AfterSetGamePreset,
      AfterPresence, AfterReturnToWaiting, AfterPhaseTimeout;
    NobodyIsSeated(r);
  }
}
