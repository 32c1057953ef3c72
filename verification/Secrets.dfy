// What one participant learns of the others' secrets (roles, tokens, night actions, ballots, findings):
// nothing but what the phase, the living, the result, their own role and findings, and the roles shown
// give away. Two runs that agree in these tell a participant the same, message by message.

module Secrets {
  import opened Rules
  import opened Settings
  import opened RoomModel
  import opened RoomInvariant
  import opened RoomSteps
  import opened RoomRuns
  import opened Seats
  import opened Outcomes
  import opened Views
  import opened Streams

  // ---- Rooms that one participant cannot tell apart ---------------------------------------------

  // Two rooms as anyone may see them, but for the roles shown.
  ghost predicate SameInPublic(r: Room, s: Room) {
    && s == r.(players := s.players, spectators := s.spectators, nightActions := s.nightActions, votes := s.votes,
               investigations := s.investigations)
    && SameSeats(r.players, s.players) && SameStands(r.spectators, s.spectators)
  }

  ghost predicate SameOwnSeat(r: Room, s: Room, p: Id) {
    && (p in r.players ==> p in s.players && r.players[p] == s.players[p])
    && (p in r.spectators ==> p in s.spectators && r.spectators[p] == s.spectators[p])
  }

  ghost predicate SameOwnBallot(a: Votes, b: Votes, p: Id) {
    (p in a <==> p in b) && (p in a ==> a[p] == b[p])
  }

  ghost predicate SameOwnMoves(r: Room, s: Room, p: Id) {
    && (p in r.nightActions <==> p in s.nightActions)
    && SameOwnBallot(r.votes, s.votes, p)
    && FindingsOf(r.investigations, p) == FindingsOf(s.investigations, p)
  }

  ghost predicate Alike(r: Room, s: Room, p: Id) {
    SameInPublic(r, s) && SameOwnSeat(r, s, p) && SameOwnMoves(r, s, p)
  }

  // What is given away.
  ghost predicate SameNews(r: Room, s: Room, p: Id) {
    && r.phase == s.phase && Living(r.players) == Living(s.players) && r.result == s.result
    && (p in r.players && p in s.players ==> r.players[p].role == s.players[p].role)
    && FindingsOf(r.investigations, p) == FindingsOf(s.investigations, p)
    && (forall q :: q in r.players && q in s.players && RoleIsOut(r, q) ==> r.players[q].role == s.players[q].role)
  }

  // What they are shown is the same.
  lemma AlikeShowsTheSame(r: Room, s: Room, p: Id)
    requires Alike(r, s, p) && SameNews(r, s, p)
    ensures SnapshotOf(r) == SnapshotOf(s) && PrivateViewOf(r, p) == PrivateViewOf(s, p)
  {
    hide SnapshotOf, PrivateViewOf, FindingsOf;
    SnapshotKeepsSecrets(r, s);
    PrivateViewIsOnesOwn(r, s, p);
  }

  lemma SameConnected(a: Players, b: Players)
    requires SameSeats(a, b)
    ensures Connected(a) == Connected(b) && forall owner :: ConnectedOwner(owner, a) == ConnectedOwner(owner, b)
  {
    hide Least;
  }

  // ---- The end of a phase ------------------------------------------------------------------------

  // The same done to both in public.
  lemma StillAlike(r: Room, s: Room, r': Room, s': Room, p: Id)
    requires Alike(r, s, p)
    requires r'.players == r.players && r'.spectators == r.spectators && r'.nightActions == r.nightActions && r'.votes == r.votes
      && r'.investigations == r.investigations
    requires s' == r'.(players := s.players, spectators := s.spectators, nightActions := s.nightActions, votes := s.votes,
                       investigations := s.investigations)
    ensures Alike(r', s', p)
  {
    hide SameSeats, SameStands, FindingsOf;
  }

  lemma FinishAlike(r: Room, s: Room, p: Id, at: int)
    requires Alike(r, s, p) && FinishGame(r, at).result == FinishGame(s, at).result
    ensures Alike(FinishGame(r, at), FinishGame(s, at), p)
  {
    hide WinnerOf, SameSeats, SameStands, SameOwnSeat, SameOwnMoves;
    assert WinnerOf(r.players) == WinnerOf(s.players);
    StillAlike(r, s, FinishGame(r, at), FinishGame(s, at), p);
    hide Alike;
  }

  lemma NightFallsAlike(r: Room, s: Room, p: Id, at: int)
    requires Alike(r, s, p)
    ensures Alike(Logged(EnterPhase(r.(round := r.round + 1), Night, at).(nightActions := map[]), NightStarted, at),
                  Logged(EnterPhase(s.(round := s.round + 1), Night, at).(nightActions := map[]), NightStarted, at), p)
  {
    hide SameSeats, SameStands, FindingsOf;
  }

  lemma AfterDayAlike(r: Room, s: Room, p: Id, at: int)
    requires Alike(r, s, p)
    requires AfterDay(r, at).phase == AfterDay(s, at).phase && AfterDay(r, at).result == AfterDay(s, at).result
    ensures Alike(AfterDay(r, at), AfterDay(s, at), p)
  {
    hide IsDecided, Alike;
    AfterDayEnds(r, at);
    AfterDayEnds(s, at);
    if IsDecided(r.players) {
      FinishAlike(r, s, p, at);
    } else {
      NightFallsAlike(r, s, p, at);
    }
    hide FinishGame, EnterPhase, Logged;
  }

  lemma AfterDayEnds(r: Room, at: int)
    ensures AfterDay(r, at).phase == if IsDecided(r.players) then Finished else Night
  {
    hide IsDecided, WinnerOf;
  }

  lemma SlainFewer(players: Players, victims: set<Id>)
    ensures Living(Slain(players, victims)) == Living(players) - victims && Slain(players, victims).Keys == players.Keys
  {
  }

  lemma SlainAlike(a: Players, b: Players, victims: set<Id>)
    requires SameSeats(a, b)
    ensures SameSeats(Slain(a, victims), Slain(b, victims))
  {
  }

  lemma SameLiving(a: Players, b: Players)
    requires SameSeats(a, b)
    ensures Living(a) == Living(b)
  {
  }

  // The same seats, the same living afterwards: the same died.
  lemma SameDied(a: Players, b: Players, v: set<Id>, w: set<Id>)
    requires SameSeats(a, b) && v <= Living(a) && w <= Living(b)
    requires Living(Slain(a, v)) == Living(Slain(b, w))
    ensures v == w
  {
    SlainFewer(a, v);
    SlainFewer(b, w);
    SameLiving(a, b);
    hide Living, Slain;
    assert v == Living(a) - (Living(a) - v);
    assert w == Living(b) - (Living(b) - w);
  }

  lemma PrunedAlike(r: Room, s: Room, p: Id, a: Players, b: Players)
    requires Alike(r, s, p) && SameSeats(a, b)
    ensures SameOwnBallot(PrunedVotes(r.votes, a), PrunedVotes(s.votes, b), p)
  {
    hide SameStands, FindingsOf;
    assert forall q :: IsLiving(a, q) <==> IsLiving(b, q);
  }

  lemma MorningAlike(r: Room, s: Room, p: Id, at: int)
    requires Alike(r, s, p) && Victims(r.nightActions) == Victims(s.nightActions)
    requires FindingsOf(Morning(r, at).investigations, p) == FindingsOf(Morning(s, at).investigations, p)
    ensures Alike(Morning(r, at), Morning(s, at), p)
  {
    hide Victims, Investigated, EliminationLog, FindingsOf, PrunedVotes, SameStands;
    var victims := Victims(r.nightActions);
    SlainAlike(r.players, s.players, victims);
    PrunedAlike(r, s, p, Slain(r.players, victims), Slain(s.players, victims));
    hide SameSeats;
  }

  lemma NightEnds(r: Room, at: int)
    ensures var after := NightResolved(r, at);
      && after.phase == (if IsDecided(Morning(r, at).players) then Finished else DayDiscussion)
      && after.players == Morning(r, at).players && after.investigations == Morning(r, at).investigations
  {
    hide Morning, IsDecided, WinnerOf;
  }

  lemma DayBreaksAlike(r: Room, s: Room, p: Id, at: int)
    requires Alike(r, s, p)
    ensures Alike(Logged(EnterPhase(r, DayDiscussion, at).(votes := map[]), DayStarted, at),
                  Logged(EnterPhase(s, DayDiscussion, at).(votes := map[]), DayStarted, at), p)
  {
    hide SameSeats, SameStands, FindingsOf;
  }

  lemma NightResolvedAlike(r: Room, s: Room, p: Id, at: int)
    requires Alike(r, s, p) && IsFairNight(r) && IsFairNight(s)
    requires SameNews(NightResolved(r, at), NightResolved(s, at), p)
    ensures Alike(NightResolved(r, at), NightResolved(s, at), p)
  {
    hide FindingsOf, IsDecided, Alike, SameOwnSeat, SameOwnMoves, CastOk, ActionsOk, FinishGame, EnterPhase, Logged, Victims, EliminationLog, Investigated, PrunedVotes;
    NightEnds(r, at);
    NightEnds(s, at);
    VictimFacts(r.players, r.nightActions);
    VictimFacts(s.players, s.nightActions);
    PublicSeats(r, s, p);
    SameDied(r.players, s.players, Victims(r.nightActions), Victims(s.nightActions));
    MorningAlike(r, s, p, at);
    hide Morning;
    if IsDecided(Morning(r, at).players) {
      FinishAlike(Morning(r, at), Morning(s, at), p, at);
    } else {
      DayBreaksAlike(Morning(r, at), Morning(s, at), p, at);
    }
  }

  lemma PublicSeats(r: Room, s: Room, p: Id)
    requires Alike(r, s, p)
    ensures SameSeats(r.players, s.players) && Living(r.players) == Living(s.players)
  {
    SameLiving(r.players, s.players);
  }

  lemma VoteEnds(r: Room, at: int)
    requires AllLivingVoted(r.players, r.votes)
    ensures var elected := Elected(PrunedVotes(r.votes, r.players));
      && (elected == NO_ID ==>
          && VoteResolved(r, at) == AfterDay(Logged(r.(votes := map[]), VoteNoExecution, at), at)
          && VoteResolved(r, at).phase == if IsDecided(r.players) then Finished else Night)
      && (elected != NO_ID ==>
          && VoteResolved(r, at) == Executed(r, elected, at) && VoteResolved(r, at).phase == LastWords
          && Living(VoteResolved(r, at).players) == Living(r.players) - {elected} && IsLiving(r.players, elected))
  {
    hide Elected, PrunedVotes, AfterDay, Slain;
    var elected := Elected(PrunedVotes(r.votes, r.players));
    ElectedIsLiving(r.votes, r.players);
    AfterDayEnds(Logged(r.(votes := map[]), VoteNoExecution, at), at);
    SlainFewer(r.players, {elected});
  }

  lemma ExecutedAlike(r: Room, s: Room, p: Id, target: Id, at: int)
    requires Alike(r, s, p)
    ensures Alike(Executed(r, target, at), Executed(s, target, at), p)
  {
    hide SameStands, FindingsOf;
    SlainAlike(r.players, s.players, {target});
    hide SameSeats;
  }

  lemma NobodyExecutedAlike(r: Room, s: Room, p: Id, at: int)
    requires Alike(r, s, p)
    ensures Alike(Logged(r.(votes := map[]), VoteNoExecution, at), Logged(s.(votes := map[]), VoteNoExecution, at), p)
  {
    hide SameSeats, SameStands, FindingsOf;
  }

  lemma VoteResolvedAlike(r: Room, s: Room, p: Id, at: int)
    requires Alike(r, s, p) && AllLivingVoted(r.players, r.votes) && AllLivingVoted(s.players, s.votes)
    requires SameNews(VoteResolved(r, at), VoteResolved(s, at), p)
    ensures Alike(VoteResolved(r, at), VoteResolved(s, at), p)
  {
    hide Alike, Elected, PrunedVotes, AfterDay, Executed, FindingsOf, AllLivingVoted, Logged;
    VoteEnds(r, at);
    VoteEnds(s, at);
    PublicSeats(r, s, p);
    var e, f := Elected(PrunedVotes(r.votes, r.players)), Elected(PrunedVotes(s.votes, s.players));
    if e == NO_ID {
      NobodyExecutedAlike(r, s, p, at);
      AfterDayAlike(Logged(r.(votes := map[]), VoteNoExecution, at), Logged(s.(votes := map[]), VoteNoExecution, at), p, at);
    } else {
      OneLess(Living(r.players), e, f);
      ExecutedAlike(r, s, p, e, at);
    }
    hide VoteResolved;
  }

  lemma OneLess(all: set<Id>, e: Id, f: Id)
    requires e in all && f in all && all - {e} == all - {f}
    ensures e == f
  {
    assert e !in all - {f};
  }

  // ---- Play --------------------------------------------------------------------------------------

  lemma NightMaybeAlike(r: Room, s: Room, p: Id, at: int)
    requires Alike(r, s, p) && r.phase == Night && IsFairNight(r) && IsFairNight(s)
    requires SameNews(NightMaybeResolved(r, at), NightMaybeResolved(s, at), p)
    ensures Alike(NightMaybeResolved(r, at), NightMaybeResolved(s, at), p)
  {
    hide IsFairNight, NightResolved, AllNightActionsSubmitted, FindingsOf, SameSeats, SameStands, Morning, IsDecided;
    NightEnds(r, at);
    NightEnds(s, at);
    if AllNightActionsSubmitted(r.players, r.nightActions) && AllNightActionsSubmitted(s.players, s.nightActions) {
      NightResolvedAlike(r, s, p, at);
    }
  }

  lemma VoteMaybeAlike(r: Room, s: Room, p: Id, at: int)
    requires Alike(r, s, p) && r.phase == DayVoting
    requires SameNews(VoteMaybeResolved(r, at), VoteMaybeResolved(s, at), p)
    ensures Alike(VoteMaybeResolved(r, at), VoteMaybeResolved(s, at), p)
  {
    hide VoteResolved, AllLivingVoted, FindingsOf, SameSeats, SameStands, IsDecided, AfterDay, Executed, PrunedVotes, Elected, Logged;
    if AllLivingVoted(r.players, r.votes) {
      VoteEnds(r, at);
    }
    if AllLivingVoted(s.players, s.votes) {
      VoteEnds(s, at);
    }
    PublicSeats(r, s, p);
    if AllLivingVoted(r.players, r.votes) && AllLivingVoted(s.players, s.votes) && Living(r.players) != {} {
      VoteResolvedAlike(r, s, p, at);
    }
  }

  lemma ShotFiredAlike(r: Room, s: Room, p: Id, q: Id, target: Id, at: int)
    requires Alike(r, s, p) && q in r.players && q in s.players
    ensures Alike(ShotFired(r, q, target, at), ShotFired(s, q, target, at), p)
  {
    hide SameStands, FindingsOf, PrunedVotes;
    var a, b := r.players[q := r.players[q].(shooterUsed := true)], s.players[q := s.players[q].(shooterUsed := true)];
    assert SameSeats(a, b);
    SlainAlike(a, b, {target});
    PrunedAlike(r, s, p, Slain(a, {target}), Slain(b, {target}));
    hide SameSeats, SameOwnBallot;
  }

  lemma ShotSettles(fired: Room, at: int)
    requires IsDay(fired.phase)
    ensures ShotSettled(fired, at).phase == Finished <==> IsDecided(fired.players)
  {
    hide IsDecided, VoteResolved, AllLivingVoted, AfterDay, Executed, PrunedVotes, Elected, Logged;
    if AllLivingVoted(fired.players, fired.votes) {
      VoteEnds(fired, at);
    }
    FinishIsFinished(fired, at);
    hide FinishGame;
  }

  lemma FinishIsFinished(r: Room, at: int)
    ensures FinishGame(r, at).phase == Finished
  {
    hide WinnerOf;
  }

  lemma ShotAlike(r: Room, s: Room, p: Id, q: Id, target: Id, at: int)
    requires Alike(r, s, p) && q in r.players && q in s.players && IsDay(r.phase)
    requires SameNews(ShotResolved(r, q, target, at), ShotResolved(s, q, target, at), p)
    ensures Alike(ShotResolved(r, q, target, at), ShotResolved(s, q, target, at), p)
  {
    hide IsDecided, VoteMaybeResolved, FinishGame, FindingsOf, SameSeats, SameStands, SameOwnSeat, SameOwnMoves;
    var a, b := ShotFired(r, q, target, at), ShotFired(s, q, target, at);
    ShotFiredAlike(r, s, p, q, target, at);
    ShotSettles(a, at);
    ShotSettles(b, at);
    hide ShotFired;
    if IsDecided(a.players) {
      FinishAlike(a, b, p, at);
    } else if a.phase == DayVoting {
      VoteMaybeAlike(a, b, p, at);
    }
  }

  lemma OpenedAlike(r: Room, s: Room, p: Id, opener: Id, at: int)
    requires Alike(r, s, p)
    ensures Alike(VotingOpened(r, opener, at), VotingOpened(s, opener, at), p)
  {
    hide SameSeats, SameStands, FindingsOf;
  }

  lemma ExpiredAlike(r: Room, s: Room, p: Id, at: int)
    requires Alike(r, s, p)
    ensures Alike(Logged(r, PhaseTimedOut(r.phase), at), Logged(s, PhaseTimedOut(s.phase), at), p)
  {
    hide SameSeats, SameStands, FindingsOf;
  }

  lemma PassedAlike(r: Room, s: Room, a: Room, b: Room, p: Id)
    requires Alike(a, b, p) && a.players == r.players && b.players == s.players && a.nightActions == r.nightActions && b.nightActions == s.nightActions
    ensures Alike(a.(nightActions := WithPasses(r.players, r.nightActions)), b.(nightActions := WithPasses(s.players, s.nightActions)), p)
  {
    hide SameStands, FindingsOf;
    assert HasNightAction(r.players, p) <==> HasNightAction(s.players, p);
    hide HasNightAction;
  }

  lemma AbstainedAlike(r: Room, s: Room, a: Room, b: Room, p: Id)
    requires Alike(a, b, p) && a.players == r.players && b.players == s.players && a.votes == r.votes && b.votes == s.votes
    ensures Alike(a.(votes := WithAbstentions(r.players, r.votes)), b.(votes := WithAbstentions(s.players, s.votes)), p)
  {
    hide SameStands, FindingsOf;
    PublicSeats(a, b, p);
    hide SameSeats, Living;
  }

  lemma WordsEndAlike(r: Room, s: Room, p: Id)
    requires Alike(r, s, p)
    ensures Alike(r.(lastWords := NO_ID), s.(lastWords := NO_ID), p)
  {
    hide SameSeats, SameStands, FindingsOf;
  }

  lemma TimedOutAlike(r: Room, s: Room, p: Id, at: int)
    requires Alike(r, s, p) && IsActive(r.phase) && (r.phase == Night ==> IsFairNight(r) && IsFairNight(s))
    requires SameNews(TimedOut(r, at), TimedOut(s, at), p)
    ensures Alike(TimedOut(r, at), TimedOut(s, at), p)
  {
    hide SameSeats, SameStands, SameOwnSeat, SameOwnMoves, FindingsOf, NightResolved, VoteResolved, AfterDay, WithPasses, WithAbstentions, VotingOpened,
      CastOk, ActionsOk, AllLivingVoted;
    var a, b := Logged(r, PhaseTimedOut(r.phase), at), Logged(s, PhaseTimedOut(s.phase), at);
    ExpiredAlike(r, s, p, at);
    match r.phase
    case Night =>
      PassesAreOk(r.players, r.nightActions);
      PassesAreOk(s.players, s.nightActions);
      PassedAlike(r, s, a, b, p);
      NightResolvedAlike(a.(nightActions := WithPasses(r.players, r.nightActions)), b.(nightActions := WithPasses(s.players, s.nightActions)), p, at);
    case DayDiscussion => OpenedAlike(a, b, p, NO_ID, at);
    case DayVoting =>
      AbstainedAlike(r, s, a, b, p);
      AllAbstain(r.players, r.votes);
      AllAbstain(s.players, s.votes);
      VoteResolvedAlike(a.(votes := WithAbstentions(r.players, r.votes)), b.(votes := WithAbstentions(s.players, s.votes)), p, at);
    case LastWords =>
      WordsEndAlike(a, b, p);
      AfterDayAlike(a.(lastWords := NO_ID), b.(lastWords := NO_ID), p, at);
  }

  // ---- One event ---------------------------------------------------------------------------------

  // Nobody else can tell these events apart.
  predicate SameKind(a: EventKind, b: EventKind) {
    || a == b
    || (IsNightChoice(a) && IsNightChoice(b))
    || (a.Vote? && b.Vote?)
    || (a.Join? && b.Join? && a.name == b.name && a.spectator == b.spectator)
  }

  // Others' night choices and ballots may even be different people's.
  predicate SameToOthers(x: Input, y: Input, p: Id) {
    && x.event.at == y.event.at && SameKind(x.event.kind, y.event.kind)
    && (x.event.player == y.event.player || IsNightChoice(x.event.kind) || x.event.kind.Vote?)
    && (x.event.player == p || y.event.player == p ==> x == y)
  }

  lemma StampedAlike(r: Room, s: Room, p: Id, at: int)
    requires Alike(r, s, p)
    ensures Alike(r.(updatedAt := at), s.(updatedAt := at), p)
  {
    hide SameSeats, SameStands, FindingsOf;
  }

  lemma StampedNews(r: Room, s: Room, p: Id, at: int)
    requires SameNews(r.(updatedAt := at), s.(updatedAt := at), p)
    ensures SameNews(r, s, p)
  {
    hide FindingsOf, Living;
    forall q | q in r.players && q in s.players && RoleIsOut(r, q) ensures r.players[q].role == s.players[q].role {
      assert RoleIsOut(r.(updatedAt := at), q);
    }
  }

  // Both handled, and given away the same.
  ghost predicate SameHandling(a: Outcome, b: Outcome, p: Id) {
    a.Accepted? && b.Accepted? && SameNews(a.room, b.room, p)
  }

  ghost predicate AlikeAfter(a: Outcome, b: Outcome, p: Id) {
    a.Accepted? && b.Accepted? && Alike(a.room, b.room, p) && a.reply == b.reply
  }

  lemma StampedBoth(r: Room, s: Room, p: Id, at: int)
    requires Alike(r, s, p)
    ensures AlikeAfter(Accept(r, at), Accept(s, at), p)
  {
    StampedAlike(r, s, p, at);
    hide Alike;
  }

  lemma ActedAlike(r: Room, s: Room, a: Room, b: Room, p: Id)
    requires Alike(r, s, p) && a == r.(nightActions := a.nightActions) && b == s.(nightActions := b.nightActions)
    requires p in a.nightActions <==> p in b.nightActions
    ensures Alike(a, b, p)
  {
    hide SameSeats, SameStands, FindingsOf;
  }

  lemma ChoiceAlike(r: Room, s: Room, x: Input, y: Input, p: Id)
    requires Alike(r, s, p) && SameToOthers(x, y, p) && IsNightChoice(x.event.kind) && Inv(r) && Inv(s)
    requires SameHandling(Handled(r, x.event, x.entropy), Handled(s, y.event, y.entropy), p)
    ensures AlikeAfter(Handled(r, x.event, x.entropy), Handled(s, y.event, y.entropy), p)
  {
    hide Inv, Handled, IsFairNight, NightMaybeResolved, SameNews, SameInPublic, SameOwnSeat, SameOwnBallot, FindingsOf;
    var a := ChoiceActs(r, x.event, x.entropy);
    var b := ChoiceActs(s, y.event, y.entropy);
    var at := x.event.at;
    ActedAlike(r, s, a, b, p);
    StampedNews(NightMaybeResolved(a, at), NightMaybeResolved(b, at), p, at);
    NightMaybeAlike(a, b, p, at);
    StampedBoth(NightMaybeResolved(a, at), NightMaybeResolved(b, at), p, at);
    hide Alike;
  }

  lemma BallotAlike(r: Room, s: Room, p: Id, q: Id, o: Id, t: Id, u: Id)
    requires Alike(r, s, p) && (q == p || o == p ==> q == o && t == u)
    ensures Alike(r.(votes := r.votes[q := t]), s.(votes := s.votes[o := u]), p)
  {
    hide SameSeats, SameStands, FindingsOf;
  }

  lemma VoteAlike(r: Room, s: Room, p: Id, q: Id, o: Id, t: Id, u: Id, at: int)
    requires Alike(r, s, p) && (q == p || o == p ==> q == o && t == u)
    requires SameHandling(AfterVote(r, q, t, at), AfterVote(s, o, u, at), p)
    ensures AlikeAfter(AfterVote(r, q, t, at), AfterVote(s, o, u, at), p)
  {
    hide VoteMaybeResolved, SameNews, Alike;
    var a, b := r.(votes := r.votes[q := t]), s.(votes := s.votes[o := u]);
    BallotAlike(r, s, p, q, o, t, u);
    StampedNews(VoteMaybeResolved(a, at), VoteMaybeResolved(b, at), p, at);
    VoteMaybeAlike(a, b, p, at);
    StampedBoth(VoteMaybeResolved(a, at), VoteMaybeResolved(b, at), p, at);
  }

  lemma ShootAlike(r: Room, s: Room, p: Id, q: Id, target: Id, at: int)
    requires Alike(r, s, p)
    requires SameHandling(AfterShoot(r, q, target, at), AfterShoot(s, q, target, at), p)
    ensures AlikeAfter(AfterShoot(r, q, target, at), AfterShoot(s, q, target, at), p)
  {
    hide ShotResolved, SameNews, Alike;
    StampedNews(ShotResolved(r, q, target, at), ShotResolved(s, q, target, at), p, at);
    ShotAlike(r, s, p, q, target, at);
    StampedBoth(ShotResolved(r, q, target, at), ShotResolved(s, q, target, at), p, at);
  }

  lemma TimeoutAlike(r: Room, s: Room, p: Id, at: int)
    requires Alike(r, s, p) && Inv(r) && Inv(s)
    requires SameHandling(AfterPhaseTimeout(r, at), AfterPhaseTimeout(s, at), p)
    ensures AlikeAfter(AfterPhaseTimeout(r, at), AfterPhaseTimeout(s, at), p)
  {
    hide TimedOut, SameNews, Inv, GameCore, CastOk, ActionsOk, SameOwnSeat, SameOwnMoves, SameSeats, SameStands;
    if r.phase == Night {
      NightParts(r);
      NightParts(s);
      CoreParts(r);
      CoreParts(s);
    }
    StampedNews(TimedOut(r, at), TimedOut(s, at), p, at);
    TimedOutAlike(r, s, p, at);
    StampedBoth(TimedOut(r, at), TimedOut(s, at), p, at);
  }

  lemma StartVoteAlike(r: Room, s: Room, p: Id, q: Id, at: int)
    requires Alike(r, s, p)
    requires SameHandling(AfterStartVote(r, q, at), AfterStartVote(s, q, at), p)
    ensures AlikeAfter(AfterStartVote(r, q, at), AfterStartVote(s, q, at), p)
  {
    hide VotingOpened, SameNews, Alike;
    OpenedAlike(r, s, p, q, at);
    StampedBoth(VotingOpened(r, q, at), VotingOpened(s, q, at), p, at);
  }

  // ---- Seats -------------------------------------------------------------------------------------

  lemma PlayersAlike(r: Room, s: Room, p: Id, q: Id, x: Player, y: Player, owner: Id)
    requires Alike(r, s, p) && SameSeat(x, y) && (q == p ==> x == y)
    ensures Alike(r.(players := r.players[q := x], owner := owner), s.(players := s.players[q := y], owner := owner), p)
    ensures SameSeats(r.players[q := x], s.players[q := y])
  {
    hide SameSeat, SameStands, FindingsOf;
    assert SameSeats(r.players[q := x], s.players[q := y]);
  }

  lemma SpectatorsAlike(r: Room, s: Room, p: Id, q: Id, x: Spectator, y: Spectator)
    requires Alike(r, s, p) && x.name == y.name && x.connected == y.connected && x.afk == y.afk && (q == p ==> x == y)
    ensures Alike(r.(spectators := r.spectators[q := x]), s.(spectators := s.spectators[q := y]), p)
  {
    hide SameSeats, FindingsOf;
  }

  lemma SeatIsSame(r: Room, s: Room, p: Id, q: Id)
    requires Alike(r, s, p)
    ensures q in r.players <==> q in s.players
    ensures q in r.spectators <==> q in s.spectators
    ensures q in r.players ==> SameSeat(r.players[q], s.players[q]) && (q == p ==> r.players[q] == s.players[q])
    ensures q in r.spectators ==> var x, y := r.spectators[q], s.spectators[q];
      x.name == y.name && x.connected == y.connected && x.afk == y.afk && (q == p ==> x == y)
    ensures s == r.(players := s.players, spectators := s.spectators, nightActions := s.nightActions, votes := s.votes, investigations := s.investigations)
  {
    hide SameSeat, FindingsOf;
  }

  lemma RejoinAlike(r: Room, s: Room, p: Id, q: Id, name: string)
    requires Alike(r, s, p) && q in r.players && q in s.players
    ensures Alike(Rejoined(r, q, name), Rejoined(s, q, name), p)
  {
    hide Alike, ConnectedOwner, SameSeats;
    SeatIsSame(r, s, p, q);
    var x, y := r.players[q].(name := name, connected := true, afk := false), s.players[q].(name := name, connected := true, afk := false);
    PlayersAlike(r, s, p, q, x, y, ConnectedOwner(r.owner, r.players[q := x]));
    SameConnected(r.players[q := x], s.players[q := y]);
  }

  lemma SpectatorRejoinAlike(r: Room, s: Room, p: Id, q: Id, name: string)
    requires Alike(r, s, p) && q in r.spectators && q in s.spectators
    ensures Alike(SpectatorRejoined(r, q, name), SpectatorRejoined(s, q, name), p)
  {
    hide Alike;
    SeatIsSame(r, s, p, q);
    SpectatorsAlike(r, s, p, q, r.spectators[q].(name := name, connected := true, afk := false),
                    s.spectators[q].(name := name, connected := true, afk := false));
  }

  lemma NewSpectatorAlike(r: Room, s: Room, p: Id, q: Id, name: string, t: Token, u: Token, at: int)
    requires Alike(r, s, p) && (q == p ==> t == u)
    ensures Alike(SpectatorSeated(r, q, name, t, at), SpectatorSeated(s, q, name, u, at), p)
  {
    hide Alike;
    SpectatorsAlike(r, s, p, q, Spectator(name, t, true, false, 0, at), Spectator(name, u, true, false, 0, at));
  }

  lemma NewPlayerAlike(r: Room, s: Room, p: Id, q: Id, name: string, t: Token, u: Token, at: int)
    requires Alike(r, s, p) && (q == p ==> t == u)
    ensures Alike(PlayerSeated(r, q, name, t, at), PlayerSeated(s, q, name, u, at), p)
  {
    hide Alike, SameSeats;
    SeatIsSame(r, s, p, q);
    PlayersAlike(r, s, p, q, Player(name, t, false, true, NoRole, true, false, false, 0, at),
                 Player(name, u, false, true, NoRole, true, false, false, 0, at), if r.owner == NO_ID then q else r.owner);
  }

  lemma JoinAlike(r: Room, s: Room, p: Id, x: Input, y: Input)
    requires Alike(r, s, p) && SameToOthers(x, y, p) && x.event.kind.Join?
    requires AfterJoin(r, x.event.player, x.event.kind, x.event.at, x.entropy).Accepted?
    requires AfterJoin(s, y.event.player, y.event.kind, y.event.at, y.entropy).Accepted?
    ensures AlikeAfter(AfterJoin(r, x.event.player, x.event.kind, x.event.at, x.entropy), AfterJoin(s, y.event.player, y.event.kind, y.event.at, y.entropy), p)
  {
    hide Alike, Rejoined, SpectatorRejoined, SpectatorSeated, PlayerSeated, SameSeat;
    var q, name, at := x.event.player, x.event.kind.name, x.event.at;
    SeatIsSame(r, s, p, q);
    if q in r.players {
      RejoinAlike(r, s, p, q, name);
      StampedBoth(Rejoined(r, q, name), Rejoined(s, q, name), p, at);
    } else if q in r.spectators {
      SpectatorRejoinAlike(r, s, p, q, name);
      StampedBoth(SpectatorRejoined(r, q, name), SpectatorRejoined(s, q, name), p, at);
    } else if x.event.kind.spectator {
      NewSpectatorAlike(r, s, p, q, name, x.entropy.token, y.entropy.token, at);
      StampedBoth(SpectatorSeated(r, q, name, x.entropy.token, at), SpectatorSeated(s, q, name, y.entropy.token, at), p, at);
    } else {
      NewPlayerAlike(r, s, p, q, name, x.entropy.token, y.entropy.token, at);
      StampedBoth(PlayerSeated(r, q, name, x.entropy.token, at), PlayerSeated(s, q, name, y.entropy.token, at), p, at);
    }
  }

  lemma DropAlike(r: Room, s: Room, p: Id, q: Id)
    requires Alike(r, s, p) && q in r.players && q in s.players
    ensures Alike(PlayerDropped(r, q), PlayerDropped(s, q), p)
  {
    hide Alike, ConnectedOwner, SameSeats;
    SeatIsSame(r, s, p, q);
    var x, y := r.players[q].(connected := false, afk := false), s.players[q].(connected := false, afk := false);
    PlayersAlike(r, s, p, q, x, y, if r.owner == q then ConnectedOwner(q, r.players[q := x]) else r.owner);
    SameConnected(r.players[q := x], s.players[q := y]);
  }

  lemma DisconnectAlike(r: Room, s: Room, p: Id, q: Id, at: int)
    requires Alike(r, s, p) && AfterDisconnect(r, q, at).Accepted? && AfterDisconnect(s, q, at).Accepted?
    ensures AlikeAfter(AfterDisconnect(r, q, at), AfterDisconnect(s, q, at), p)
  {
    hide Alike, PlayerDropped;
    SeatIsSame(r, s, p, q);
    if q in r.players {
      DropAlike(r, s, p, q);
      StampedBoth(PlayerDropped(r, q), PlayerDropped(s, q), p, at);
    } else {
      SpectatorsAlike(r, s, p, q, r.spectators[q].(connected := false, afk := false), s.spectators[q].(connected := false, afk := false));
      StampedBoth(SpectatorDropped(r, q), SpectatorDropped(s, q), p, at);
    }
  }

  lemma OneLessPlayer(r: Room, s: Room, p: Id, q: Id, owner: Id)
    requires Alike(r, s, p)
    ensures Alike(r.(players := r.players - {q}, owner := owner), s.(players := s.players - {q}, owner := owner), p)
    ensures (r.players - {q}).Keys == (s.players - {q}).Keys
  {
    hide SameSeat, SameStands, FindingsOf;
  }

  lemma OneLessSpectator(r: Room, s: Room, p: Id, q: Id)
    requires Alike(r, s, p)
    ensures Alike(r.(spectators := r.spectators - {q}), s.(spectators := s.spectators - {q}), p)
  {
    hide SameSeats, FindingsOf;
  }

  lemma LeaveAlike(r: Room, s: Room, p: Id, q: Id, at: int)
    requires Alike(r, s, p) && AfterLeave(r, q, at).Accepted? && AfterLeave(s, q, at).Accepted?
    ensures AlikeAfter(AfterLeave(r, q, at), AfterLeave(s, q, at), p)
  {
    hide Alike, AfterDisconnect, Least;
    SeatIsSame(r, s, p, q);
    if r.phase == Waiting && q in r.players {
      var players := r.players - {q};
      var next := if players == map[] then NO_ID else Least(players.Keys);
      var owner := if r.owner == q then next else r.owner;
      OneLessPlayer(r, s, p, q, owner);
      assert players == map[] <==> players.Keys == {};
      assert s.players - {q} == map[] <==> (s.players - {q}).Keys == {};
      StampedBoth(r.(players := players, owner := owner), s.(players := s.players - {q}, owner := owner), p, at);
    } else if r.phase == Waiting && q in r.spectators {
      OneLessSpectator(r, s, p, q);
      StampedBoth(r.(spectators := r.spectators - {q}), s.(spectators := s.spectators - {q}), p, at);
    } else {
      DisconnectAlike(r, s, p, q, at);
    }
  }

  lemma ReadyAlike(r: Room, s: Room, p: Id, q: Id, ready: bool, at: int)
    requires Alike(r, s, p) && AfterReady(r, q, ready, at).Accepted? && AfterReady(s, q, ready, at).Accepted?
    ensures AlikeAfter(AfterReady(r, q, ready, at), AfterReady(s, q, ready, at), p)
  {
    hide Alike;
    SeatIsSame(r, s, p, q);
    var x, y := r.players[q].(ready := ready), s.players[q].(ready := ready);
    PlayersAlike(r, s, p, q, x, y, r.owner);
    StampedBoth(r.(players := r.players[q := x]), s.(players := s.players[q := y]), p, at);
  }

  lemma PresenceAlike(r: Room, s: Room, p: Id, q: Id, afk: bool, at: int)
    requires Alike(r, s, p) && AfterPresence(r, q, afk, at).Accepted? && AfterPresence(s, q, afk, at).Accepted?
    ensures AlikeAfter(AfterPresence(r, q, afk, at), AfterPresence(s, q, afk, at), p)
  {
    hide Alike;
    SeatIsSame(r, s, p, q);
    if q in r.players {
      var x, y := r.players[q].(afk := afk), s.players[q].(afk := afk);
      PlayersAlike(r, s, p, q, x, y, r.owner);
      StampedBoth(r.(players := r.players[q := x]), s.(players := s.players[q := y]), p, at);
    } else {
      var x, y := r.spectators[q].(afk := afk), s.spectators[q].(afk := afk);
      SpectatorsAlike(r, s, p, q, x, y);
      StampedBoth(r.(spectators := r.spectators[q := x]), s.(spectators := s.spectators[q := y]), p, at);
    }
  }

  lemma UnseatedAlike(r: Room, s: Room, p: Id, q: Id)
    requires Alike(r, s, p)
    ensures Alike(Unseated(r, q), Unseated(s, q), p)
  {
    hide SameSeat, SameStands;
  }

  lemma KickAlike(r: Room, s: Room, p: Id, q: Id, target: Id, at: int)
    requires Alike(r, s, p) && AfterKick(r, q, target, at).Accepted? && AfterKick(s, q, target, at).Accepted?
    ensures AlikeAfter(AfterKick(r, q, target, at), AfterKick(s, q, target, at), p)
  {
    hide Alike, Unseated;
    SeatIsSame(r, s, p, target);
    if target in r.players {
      UnseatedAlike(r, s, p, target);
      StampedBoth(Unseated(r, target), Unseated(s, target), p, at);
    } else {
      OneLessSpectator(r, s, p, target);
      StampedBoth(r.(spectators := r.spectators - {target}), s.(spectators := s.spectators - {target}), p, at);
    }
  }

  lemma UnreadyAlike(r: Room, s: Room, p: Id, settings: GameSettings, durations: PhaseDurations)
    requires Alike(r, s, p)
    ensures Alike(r.(settings := settings, durations := durations, players := WithoutReadiness(r.players, r.owner)),
                  s.(settings := settings, durations := durations, players := WithoutReadiness(s.players, s.owner)), p)
  {
    hide SameStands, FindingsOf;
  }

  lemma SettingsAlike(r: Room, s: Room, p: Id, settings: GameSettings, durations: PhaseDurations, at: int)
    requires Alike(r, s, p)
    ensures AlikeAfter(AfterSettings(r, settings, durations, at), AfterSettings(s, settings, durations, at), p)
  {
    hide Alike, WithoutReadiness;
    UnreadyAlike(r, s, p, settings, durations);
    StampedBoth(r.(settings := settings, durations := durations, players := WithoutReadiness(r.players, r.owner)),
                s.(settings := settings, durations := durations, players := WithoutReadiness(s.players, s.owner)), p, at);
  }

  lemma ResetAlike(r: Room, s: Room, p: Id)
    requires Alike(r, s, p)
    ensures SameSeats(SeatsReset(r.players), SeatsReset(s.players)) && SameStands(SpectatorsKept(r.spectators), SpectatorsKept(s.spectators))
    ensures p in SeatsReset(r.players) ==> p in SeatsReset(s.players) && SeatsReset(r.players)[p] == SeatsReset(s.players)[p]
    ensures p in SpectatorsKept(r.spectators) ==> p in SpectatorsKept(s.spectators) && SpectatorsKept(r.spectators)[p] == SpectatorsKept(s.spectators)[p]
  {
    hide FindingsOf;
  }

  lemma WaitingAlike(r: Room, s: Room, p: Id, at: int)
    requires Alike(r, s, p)
    ensures Alike(WaitingAgain(r, at), WaitingAgain(s, at), p)
  {
    hide SeatsReset, SpectatorsKept, ConnectedOwner, SameSeats, SameStands;
    ResetAlike(r, s, p);
    SameConnected(SeatsReset(r.players), SeatsReset(s.players));
  }

  lemma ReturnAlike(r: Room, s: Room, p: Id, q: Id, at: int)
    requires Alike(r, s, p) && AfterReturnToWaiting(r, q, at).Accepted? && AfterReturnToWaiting(s, q, at).Accepted?
    ensures AlikeAfter(AfterReturnToWaiting(r, q, at), AfterReturnToWaiting(s, q, at), p)
  {
    hide Alike, WaitingAgain;
    WaitingAlike(r, s, p, at);
    StampedBoth(WaitingAgain(r, at), WaitingAgain(s, at), p, at);
  }

  lemma DealtAlike(a: Players, b: Players, rolesA: seq<Role>, rolesB: seq<Role>)
    requires |rolesA| == |a| && |rolesB| == |b| && SameSeats(a, b)
    ensures SameSeats(Dealt(a, rolesA), Dealt(b, rolesB))
  {
    hide Dealt, Sorted;
    forall q | q in a ensures q in Dealt(a, rolesA) && q in Dealt(b, rolesB) && SameSeat(Dealt(a, rolesA)[q], Dealt(b, rolesB)[q]) {
      DealtSeat(a, rolesA, q);
      DealtSeat(b, rolesB, q);
    }
    DealtRoles(a, rolesA);
    DealtRoles(b, rolesB);
  }

  lemma GameStartsAlike(r: Room, s: Room, p: Id, q: Id, at: int, durations: PhaseDurations, a: seq<Role>, b: seq<Role>)
    requires Alike(r, s, p) && |a| == |r.players| && |b| == |s.players|
    requires p in r.players && p in s.players ==> p in Dealt(r.players, a) && p in Dealt(s.players, b) && Dealt(r.players, a)[p].role == Dealt(s.players, b)[p].role
    ensures Alike(GameStartedRoom(r, q, at, durations, a), GameStartedRoom(s, q, at, durations, b), p)
  {
    hide Dealt, Sorted, SameStands, SameSeats;
    DealtAlike(r.players, s.players, a, b);
    DealtRoles(r.players, a);
    DealtRoles(s.players, b);
    SeatIsSame(r, s, p, p);
    if p in r.players {
      DealtSeat(r.players, a, p);
      DealtSeat(s.players, b, p);
    }
  }

  lemma StartAlike(r: Room, s: Room, p: Id, q: Id, at: int, x: Entropy, y: Entropy)
    requires Alike(r, s, p) && SameHandling(AfterStartGame(r, q, at, x), AfterStartGame(s, q, at, y), p)
    ensures AlikeAfter(AfterStartGame(r, q, at, x), AfterStartGame(s, q, at, y), p)
  {
    hide Alike, Dealt, Sorted, ShuffledDeck, ValidateForStart, FindingsOf;
    SeatIsSame(r, s, p, p);
    PublicSeats(r, s, p);
    assert |r.players| == |r.players.Keys| && |s.players| == |s.players.Keys|;
    var durations := ValidateForStart(r.settings, r.maxPlayers, r.base).value;
    var a, b := ShuffledDeck(|r.players|, r.settings.roles, x.draws), ShuffledDeck(|s.players|, s.settings.roles, y.draws);
    DealtRoles(r.players, a);
    DealtRoles(s.players, b);
    hide StartRefusal, SameSeats;
    GameStartsAlike(r, s, p, q, at, durations, a, b);
    StampedBoth(GameStartedRoom(r, q, at, durations, a), GameStartedRoom(s, q, at, durations, b), p, at);
  }

  // ---- Every event -------------------------------------------------------------------------------

  lemma ChatAlike(r: Room, s: Room, p: Id, q: Id, message: string, at: int)
    requires Alike(r, s, p) && AfterChat(r, q, message, at).Accepted? && AfterChat(s, q, message, at).Accepted?
    ensures AlikeAfter(AfterChat(r, q, message, at), AfterChat(s, q, message, at), p)
  {
    hide Alike;
    SeatIsSame(r, s, p, q);
    StampedAlike(r, s, p, at);
  }

  lemma RuleAlike(r: Room, s: Room, x: Input, y: Input, p: Id)
    requires Alike(r, s, p) && SameToOthers(x, y, p)
    requires var kind := x.event.kind; kind.TransferOwner? || kind.SetRoomLocked? || kind.SetPlayerLimit? || kind.SetGameSettings? || kind.SetGamePreset?
    requires Handled(r, x.event, x.entropy).Accepted? && Handled(s, y.event, y.entropy).Accepted?
    ensures AlikeAfter(Handled(r, x.event, x.entropy), Handled(s, y.event, y.entropy), p)
  {
    hide Alike, AfterSettings, Validate, ValidateForStart, GameSettingsForPreset;
    SeatIsSame(r, s, p, p);
    var at := x.event.at;
    match x.event.kind
    case TransferOwner(target) =>
      OwnedAlike(r, s, p, target);
      StampedBoth(r.(owner := target), s.(owner := target), p, at);
    case SetRoomLocked(locked) =>
      LockedAlike(r, s, p, locked, r.maxPlayers);
      StampedBoth(r.(locked := locked), s.(locked := locked), p, at);
    case SetPlayerLimit(limit) =>
      LockedAlike(r, s, p, r.locked, limit);
      StampedBoth(r.(maxPlayers := limit), s.(maxPlayers := limit), p, at);
    case SetGameSettings(settings) =>
      var custom := settings.(preset := Custom);
      SettingsAlike(r, s, p, custom, Validate(custom, r.maxPlayers).value, at);
    case SetGamePreset(preset) =>
      var settings := GameSettingsForPreset(preset, r.base).value;
      SettingsAlike(r, s, p, settings, ValidateForStart(settings, r.maxPlayers, r.base).value, at);
  }

  lemma OwnedAlike(r: Room, s: Room, p: Id, owner: Id)
    requires Alike(r, s, p)
    ensures Alike(r.(owner := owner), s.(owner := owner), p)
  {
    hide SameSeats, SameStands, FindingsOf;
  }

  lemma LockedAlike(r: Room, s: Room, p: Id, locked: bool, limit: int)
    requires Alike(r, s, p)
    ensures Alike(r.(locked := locked, maxPlayers := limit), s.(locked := locked, maxPlayers := limit), p)
  {
    hide SameSeats, SameStands, FindingsOf;
  }

  lemma HandledAlike(r: Room, s: Room, x: Input, y: Input, p: Id)
    requires Alike(r, s, p) && SameToOthers(x, y, p) && Inv(r) && Inv(s)
    requires SameHandling(Handled(r, x.event, x.entropy), Handled(s, y.event, y.entropy), p)
    ensures AlikeAfter(Handled(r, x.event, x.entropy), Handled(s, y.event, y.entropy), p)
  {
    hide Alike, Inv, SameNews, AfterJoin, AfterLeave, AfterDisconnect, AfterReady, AfterStartGame, AfterChat, AfterNightAction, AfterNightPass, AfterStartVote,
      AfterVote, AfterShoot, AfterTransferOwner, AfterKick, AfterSetPlayerLimit, AfterSetGameSettings, AfterSetGamePreset, AfterPresence,
      AfterReturnToWaiting, AfterPhaseTimeout;
    var q, at := x.event.player, x.event.at;
    match x.event.kind
    case Join(_, _, _) => JoinAlike(r, s, p, x, y);
    case Leave => LeaveAlike(r, s, p, q, at);
    case Disconnect => DisconnectAlike(r, s, p, q, at);
    case Ready(ready) => ReadyAlike(r, s, p, q, ready, at);
    case StartGame => StartAlike(r, s, p, q, at, x.entropy, y.entropy);
    case Chat(message) => ChatAlike(r, s, p, q, message, at);
    case NightActionOn(_) => ChoiceAlike(r, s, x, y, p);
    case NightPass => ChoiceAlike(r, s, x, y, p);
    case StartVote => StartVoteAlike(r, s, p, q, at);
    case Vote(t) => VoteAlike(r, s, p, q, y.event.player, t, y.event.kind.target, at);
    case Shoot(target) => ShootAlike(r, s, p, q, target, at);
    case KickParticipant(target) => KickAlike(r, s, p, q, target, at);
    case Presence(afk) => PresenceAlike(r, s, p, q, afk, at);
    case ReturnToWaiting => ReturnAlike(r, s, p, q, at);
    case PhaseTimeout => TimeoutAlike(r, s, p, at);
    case _ => RuleAlike(r, s, x, y, p);
  }

  function Sequenced(r: Room, q: Id, n: nat): Room {
    if n > 0 then WithSequence(r, q, n) else r
  }

  lemma SequencedAlike(r: Room, s: Room, p: Id, q: Id, m: nat, n: nat)
    requires Alike(r, s, p) && (q == p ==> m == n)
    ensures Alike(Sequenced(r, q, m), Sequenced(s, q, n), p)
  {
    hide Alike, SameSeats;
    SeatIsSame(r, s, p, q);
    if q in r.players {
      var x := if m > 0 then r.players[q].(lastSequence := m) else r.players[q];
      var y := if n > 0 then s.players[q].(lastSequence := n) else s.players[q];
      PlayersAlike(r, s, p, q, x, y, r.owner);
      assert r.players[q := r.players[q]] == r.players && s.players[q := s.players[q]] == s.players;
      assert Sequenced(r, q, m) == r.(players := r.players[q := x], owner := r.owner);
      assert Sequenced(s, q, n) == s.(players := s.players[q := y], owner := r.owner);
    } else if q in r.spectators {
      var x := if m > 0 then r.spectators[q].(lastSequence := m) else r.spectators[q];
      var y := if n > 0 then s.spectators[q].(lastSequence := n) else s.spectators[q];
      SpectatorsAlike(r, s, p, q, x, y);
      assert r.spectators[q := r.spectators[q]] == r.spectators && s.spectators[q := s.spectators[q]] == s.spectators;
      assert Sequenced(r, q, m) == r.(spectators := r.spectators[q := x]);
      assert Sequenced(s, q, n) == s.(spectators := s.spectators[q := y]);
    }
  }

  lemma SameButForCursor(players: Players, q: Id, n: nat)
    requires q in players
    ensures var after := players[q := players[q].(lastSequence := n)];
      && after.Keys == players.Keys
      && forall p :: p in players ==> after[p].role == players[p].role && after[p].alive == players[p].alive
  {
  }

  // On either side another's cursor may have moved.
  lemma BothSequenced(r: Room, s: Room, p: Id, q: Id, o: Id, m: nat, n: nat)
    requires Alike(r, s, p) && (q == p || o == p ==> q == o && m == n)
    ensures Alike(Sequenced(r, q, m), Sequenced(s, o, n), p)
  {
    hide Alike;
    if q == o {
      SequencedAlike(r, s, p, q, m, n);
    } else {
      SequencedAlike(r, s, p, q, m, 0);
      SequencedAlike(Sequenced(r, q, m), s, p, o, 0, n);
    }
  }

  lemma SequencedSeat(r: Room, q: Id, n: nat)
    ensures var t := Sequenced(r, q, n);
      && t.phase == r.phase && t.result == r.result && t.settings == r.settings && t.investigations == r.investigations
      && t.players.Keys == r.players.Keys
      && forall p :: p in r.players ==> t.players[p].role == r.players[p].role && t.players[p].alive == r.players[p].alive
  {
    if q in r.players {
      SameButForCursor(r.players, q, n);
      assert Sequenced(r, q, n).players == if n > 0 then r.players[q := r.players[q].(lastSequence := n)] else r.players;
    } else {
      assert Sequenced(r, q, n).players == r.players;
    }
  }

  lemma SequencedNews(r: Room, s: Room, p: Id, q: Id, o: Id, m: nat, n: nat)
    requires SameNews(Sequenced(r, q, m), Sequenced(s, o, n), p)
    ensures SameNews(r, s, p)
  {
    hide FindingsOf, Sequenced;
    var a, b := Sequenced(r, q, m), Sequenced(s, o, n);
    SequencedSeat(r, q, m);
    SequencedSeat(s, o, n);
    assert Living(a.players) == Living(r.players) && Living(b.players) == Living(s.players);
    hide Living;
    forall x | x in r.players && x in s.players && RoleIsOut(r, x) ensures r.players[x].role == s.players[x].role {
      assert RoleIsOut(a, x);
    }
  }

  // One event on each side.
  lemma StepAlike(r: Room, s: Room, x: Input, y: Input, p: Id)
    requires Alike(r, s, p) && SameToOthers(x, y, p) && Inv(r) && Inv(s)
    requires SameHandling(Step(r, x.event, x.entropy), Step(s, y.event, y.entropy), p)
    ensures AlikeAfter(Step(r, x.event, x.entropy), Step(s, y.event, y.entropy), p)
  {
    hide Alike, Inv, Handled, SameNews, WithSequence, IsDuplicate;
    var a, b := Handled(r, x.event, x.entropy).room, Handled(s, y.event, y.entropy).room;
    var q, o, m, n := x.event.player, y.event.player, x.event.sequence, y.event.sequence;
    SequencedNews(a, b, p, q, o, m, n);
    HandledAlike(r, s, x, y, p);
    BothSequenced(a, b, p, q, o, m, n);
  }

  // ---- Runs --------------------------------------------------------------------------------------

  // What a run posts.
  ghost function Postings(r: Room, inputs: seq<Input>): seq<Posting> {
    if inputs == [] then []
    else
      var init, last := inputs[..|inputs| - 1], inputs[|inputs| - 1];
      match Step(Run(r, init), last.event, last.entropy)
      case Rejected(_) => Postings(r, init)
      case Accepted(room, reply) => Postings(r, init) + [Posting(EnvelopeOf(reply, room), room)]
  }

  // Turn by turn p sends the same and others send what p cannot tell apart; the room takes it or not alike,
  // and gives away the same.
  ghost predicate SameStory(r: Room, s: Room, xs: seq<Input>, ys: seq<Input>, p: Id) {
    |xs| == |ys| && SameNews(r, s, p) && forall k :: 0 <= k < |xs| ==> SameTurn(r, s, xs, ys, p, k)
  }

  ghost predicate SameTurn(r: Room, s: Room, xs: seq<Input>, ys: seq<Input>, p: Id, k: nat)
    requires k < |xs| == |ys|
  {
    && SameToOthers(xs[k], ys[k], p)
    && (Step(Run(r, xs[..k]), xs[k].event, xs[k].entropy).Accepted? <==> Step(Run(s, ys[..k]), ys[k].event, ys[k].entropy).Accepted?)
    && SameNews(Run(r, xs[..k + 1]), Run(s, ys[..k + 1]), p)
  }

  lemma StoryBegins(r: Room, s: Room, xs: seq<Input>, ys: seq<Input>, p: Id)
    requires SameStory(r, s, xs, ys, p) && xs != []
    ensures SameStory(r, s, xs[..|xs| - 1], ys[..|ys| - 1], p)
  {
    hide Run, Step, SameNews, SameToOthers;
    var n := |xs| - 1;
    forall k | 0 <= k < n ensures SameTurn(r, s, xs[..n], ys[..n], p, k) {
      assert SameTurn(r, s, xs, ys, p, k);
      assert xs[..n][..k] == xs[..k] && ys[..n][..k] == ys[..k] && xs[..n][..k + 1] == xs[..k + 1] && ys[..n][..k + 1] == ys[..k + 1];
    }
  }

  lemma StoryEnds(r: Room, s: Room, xs: seq<Input>, ys: seq<Input>, p: Id)
    requires SameStory(r, s, xs, ys, p)
    ensures SameNews(Run(r, xs), Run(s, ys), p)
    ensures xs != [] ==>
      var x, y, a, b := xs[|xs| - 1], ys[|ys| - 1], Run(r, xs[..|xs| - 1]), Run(s, ys[..|ys| - 1]);
      && SameToOthers(x, y, p) && Run(r, xs) == After(a, x) && Run(s, ys) == After(b, y)
      && (Step(a, x.event, x.entropy).Accepted? <==> Step(b, y.event, y.entropy).Accepted?)
  {
    hide Step, SameNews, SameToOthers, After;
    if xs != [] {
      assert SameTurn(r, s, xs, ys, p, |xs| - 1);
      assert xs[..|xs|] == xs && ys[..|ys|] == ys;
    }
  }

  lemma SameCopy(a: Room, b: Room, reply: Reply, p: Id)
    requires Alike(a, b, p) && SameNews(a, b, p)
    ensures Copy(Posting(EnvelopeOf(reply, a), a), p) == Copy(Posting(EnvelopeOf(reply, b), b), p)
  {
    hide Alike, SameNews, SnapshotOf, PrivateViewOf;
    AlikeShowsTheSame(a, b, p);
  }

  // They make the same of it: the rooms stay alike, and p gets the same messages.
  lemma {:induction false} SecretsStaySecret(r: Room, s: Room, xs: seq<Input>, ys: seq<Input>, p: Id)
    requires Inv(r) && Inv(s) && Alike(r, s, p) && SameStory(r, s, xs, ys, p)
    ensures Alike(Run(r, xs), Run(s, ys), p) && Copies(Postings(r, xs), p) == Copies(Postings(s, ys), p)
    decreases |xs|
  {
    hide Alike, Inv, SameNews, SameStory, SameToOthers, Step, Copy, EnvelopeOf;
    StoryEnds(r, s, xs, ys, p);
    if xs == [] {
      SameLength(r, s, xs, ys, p);
    } else {
      SameLength(r, s, xs, ys, p);
      StoryBegins(r, s, xs, ys, p);
      var x, y, before, after := xs[|xs| - 1], ys[|ys| - 1], xs[..|xs| - 1], ys[..|ys| - 1];
      SecretsStaySecret(r, s, before, after, p);
      RunKeepsInv(r, before);
      RunKeepsInv(s, after);
      var a, b := Run(r, before), Run(s, after);
      if Step(a, x.event, x.entropy).Accepted? {
        StepAlike(a, b, x, y, p);
        SameCopy(Step(a, x.event, x.entropy).room, Step(b, y.event, y.entropy).room, Step(a, x.event, x.entropy).reply, p);
      }
    }
  }

  lemma SameLength(r: Room, s: Room, xs: seq<Input>, ys: seq<Input>, p: Id)
    requires SameStory(r, s, xs, ys, p)
    ensures |xs| == |ys|
  {
  }

  // The events of a run that the room accepts.
  ghost function Taken(r: Room, inputs: seq<Input>): seq<Input> {
    if inputs == [] then []
    else
      var init, last := inputs[..|inputs| - 1], inputs[|inputs| - 1];
      Taken(r, init) + if Step(Run(r, init), last.event, last.entropy).Accepted? then [last] else []
  }

  // Refused events leave no trace.
  lemma {:induction false} RefusedLeaveNoTrace(r: Room, inputs: seq<Input>)
    ensures Run(r, Taken(r, inputs)) == Run(r, inputs) && Postings(r, Taken(r, inputs)) == Postings(r, inputs)
    decreases |inputs|
  {
    hide Step, EnvelopeOf;
    if inputs == [] {
    } else {
      var init, last := inputs[..|inputs| - 1], inputs[|inputs| - 1];
      RefusedLeaveNoTrace(r, init);
      var before := Taken(r, init);
      if Step(Run(r, init), last.event, last.entropy).Accepted? {
        assert Taken(r, inputs) == before + [last];
        assert (before + [last])[..|before|] == before;
      } else {
        assert Taken(r, inputs) == before;
      }
    }
  }

  // So a participant subscribed in two rooms they cannot tell apart never can, from all they are sent,
  // whatever else was tried and refused in either.
  lemma NobodyIsTold(r: Room, s: Room, xs: seq<Input>, ys: seq<Input>, p: Id)
    requires Reachable(r) && Reachable(s) && Alike(r, s, p) && SameStory(r, s, Taken(r, xs), Taken(s, ys), p)
    ensures Told(Stream(p, StateMessage(SnapshotOf(r), PrivateViewOf(r, p)), 0, None), Postings(r, xs))
      == Told(Stream(p, StateMessage(SnapshotOf(s), PrivateViewOf(s, p)), 0, None), Postings(s, ys))
    ensures SnapshotOf(Run(r, xs)) == SnapshotOf(Run(s, ys)) && PrivateViewOf(Run(r, xs), p) == PrivateViewOf(Run(s, ys), p)
  {
    hide Alike, Inv, SameNews, SameStory, Run, Step, Reachable, SnapshotOf, PrivateViewOf, Copies, Postings, Taken;
    ReachableInv(r);
    ReachableInv(s);
    RefusedLeaveNoTrace(r, xs);
    RefusedLeaveNoTrace(s, ys);
    SecretsStaySecret(r, s, Taken(r, xs), Taken(s, ys), p);
    StoryStarts(r, s, Taken(r, xs), Taken(s, ys), p);
    AlikeShowsTheSame(r, s, p);
    StoryEnds(r, s, Taken(r, xs), Taken(s, ys), p);
    AlikeShowsTheSame(Run(r, xs), Run(s, ys), p);
    assert Postings(r, xs)[0..] == Postings(r, xs) && Postings(s, ys)[0..] == Postings(s, ys);
  }

  lemma StoryStarts(r: Room, s: Room, xs: seq<Input>, ys: seq<Input>, p: Id)
    requires SameStory(r, s, xs, ys, p)
    ensures SameNews(r, s, p)
  {
  }
}
