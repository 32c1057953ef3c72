// Play takes lives and shots; it never touches who sits where.

module Seats {
  import opened Rules
  import opened Settings
  import opened RoomModel
  import opened RoomInvariant
  import opened RoomRuns

  lemma SeatsAreApart(r: Room)
    requires Inv(r)
    ensures r.players.Keys !! r.spectators.Keys
  {
  }

  predicate SameButForLife(a: Players, b: Players) {
    && a.Keys == b.Keys
    && forall p :: p in a ==> b[p] == a[p].(alive := b[p].alive)
  }

  predicate SameRules(r: Room, s: Room) {
    s.base == r.base && s.maxSpectators == r.maxSpectators && s.locked == r.locked && s.maxPlayers == r.maxPlayers && s.settings == r.settings
  }

  // Same owner, same rules, same spectators, same players but for their lives.
  predicate SeatsKept(r: Room, s: Room) {
    s.owner == r.owner && SameRules(r, s) && s.spectators == r.spectators && SameButForLife(r.players, s.players)
  }

  function Spent(r: Room, p: Id): Room
    requires p in r.players
  {
    r.(players := r.players[p := r.players[p].(shooterUsed := true)])
  }

  // The room with the shot of an event spent, if it is one.
  function WithShotSpent(r: Room, e: Event): Room {
    if e.kind.Shoot? && e.player in r.players then Spent(r, e.player) else r
  }

  lemma KeptTwice(a: Players, b: Players, c: Players)
    requires SameButForLife(a, b) && SameButForLife(b, c)
    ensures SameButForLife(a, c)
  {
  }

  lemma SlainKeepsSeats(players: Players, victims: set<Id>)
    ensures SameButForLife(players, Slain(players, victims))
  {
  }

  lemma FinishKeepsSeats(r: Room, at: int)
    ensures SeatsKept(r, FinishGame(r, at)) && FinishGame(r, at).players == r.players
  {
    hide WinnerOf;
  }

  lemma AfterDayKeepsSeats(r: Room, at: int)
    ensures SeatsKept(r, AfterDay(r, at))
  {
    FinishKeepsSeats(r, at);
    hide IsDecided, FinishGame;
  }

  lemma NightResolvedKeepsSeats(r: Room, at: int)
    ensures SeatsKept(r, NightResolved(r, at))
  {
    var morning := Morning(r, at);
    SlainKeepsSeats(r.players, Victims(r.nightActions));
    FinishKeepsSeats(morning, at);
    hide IsDecided, PrunedVotes, Slain, Victims, Investigated, EliminationLog, FinishGame, SameButForLife;
    assert NightResolved(r, at).players == morning.players;
  }

  lemma ExecutedKeepsSeats(r: Room, target: Id, at: int)
    ensures SeatsKept(r, Executed(r, target, at))
  {
    hide Slain, SameButForLife;
    SlainKeepsSeats(r.players, {target});
  }

  lemma VoteResolvedKeepsSeats(r: Room, at: int)
    requires AllLivingVoted(r.players, r.votes)
    ensures SeatsKept(r, VoteResolved(r, at))
  {
    hide Elected, PrunedVotes, AllLivingVoted, AfterDay, Executed, SameButForLife;
    ExecutedKeepsSeats(r, Elected(PrunedVotes(r.votes, r.players)), at);
    AfterDayKeepsSeats(Logged(r.(votes := map[]), VoteNoExecution, at), at);
  }

  lemma VoteMaybeResolvedKeepsSeats(r: Room, at: int)
    ensures SeatsKept(r, VoteMaybeResolved(r, at))
  {
    hide VoteResolved, AllLivingVoted;
    if AllLivingVoted(r.players, r.votes) && Living(r.players) != {} {
      VoteResolvedKeepsSeats(r, at);
    }
  }

  lemma NightMaybeResolvedKeepsSeats(r: Room, at: int)
    ensures SeatsKept(r, NightMaybeResolved(r, at))
  {
    NightResolvedKeepsSeats(r, at);
    hide NightResolved, AllNightActionsSubmitted;
  }

  lemma ShotFiredKeepsSeats(r: Room, p: Id, target: Id, at: int)
    requires p in r.players
    ensures SeatsKept(Spent(r, p), ShotFired(r, p, target, at))
  {
    hide Slain, PrunedVotes, SameButForLife;
    SlainKeepsSeats(Spent(r, p).players, {target});
  }

  lemma ShotKeepsSeats(r: Room, p: Id, target: Id, at: int)
    requires p in r.players
    ensures SeatsKept(Spent(r, p), ShotResolved(r, p, target, at))
  {
    hide ShotFired, FinishGame, VoteMaybeResolved, IsDecided, SameButForLife, Spent;
    var fired := ShotFired(r, p, target, at);
    ShotFiredKeepsSeats(r, p, target, at);
    FinishKeepsSeats(fired, at);
    VoteMaybeResolvedKeepsSeats(fired, at);
    KeptTwice(Spent(r, p).players, fired.players, ShotSettled(fired, at).players);
  }

  lemma OpeningKeepsSeats(r: Room, opener: Id, at: int)
    ensures SeatsKept(r, VotingOpened(r, opener, at))
  {
  }

  lemma TimedOutKeepsSeats(r: Room, at: int)
    requires IsActive(r.phase)
    ensures SeatsKept(r, TimedOut(r, at))
  {
    hide SameButForLife, NightResolved, VoteResolved, AfterDay, VotingOpened, WithPasses, WithAbstentions, AllLivingVoted;
    var expired := Logged(r, PhaseTimedOut(r.phase), at);
    match r.phase
    case Night => NightResolvedKeepsSeats(expired.(nightActions := WithPasses(r.players, r.nightActions)), at);
    case DayDiscussion => OpeningKeepsSeats(expired, NO_ID, at);
    case DayVoting =>
      AllAbstain(r.players, r.votes);
      VoteResolvedKeepsSeats(expired.(votes := WithAbstentions(r.players, r.votes)), at);
    case LastWords => AfterDayKeepsSeats(expired.(lastWords := NO_ID), at);
  }

  lemma AllAbstain(players: Players, votes: Votes)
    ensures AllLivingVoted(players, WithAbstentions(players, votes))
  {
  }

  lemma PlayKeepsSeats(r: Room, e: Event, entropy: Entropy)
    requires IsPlay(e.kind) && Handled(r, e, entropy).Accepted? && (e.kind.PhaseTimeout? ==> IsActive(r.phase))
    ensures SeatsKept(WithShotSpent(r, e), Handled(r, e, entropy).room)
  {
    hide SameButForLife, NightMaybeResolved, VoteMaybeResolved, ShotResolved, TimedOut;
    match e.kind
    case NightActionOn(target) => NightActionKeepsSeats(r, e.player, target, e.at);
    case NightPass => NightPassKeepsSeats(r, e.player, e.at);
    case StartVote => StartVoteKeepsSeats(r, e.player, e.at);
    case Vote(target) => VoteMaybeResolvedKeepsSeats(r.(votes := r.votes[e.player := target]), e.at);
    case Shoot(target) => ShotKeepsSeats(r, e.player, target, e.at);
    case PhaseTimeout => TimedOutKeepsSeats(r, e.at);
  }

  lemma NightActionKeepsSeats(r: Room, p: Id, target: Id, at: int)
    requires AfterNightAction(r, p, target, at).Accepted?
    ensures SeatsKept(r, AfterNightAction(r, p, target, at).room)
  {
    hide SameButForLife, NightMaybeResolved;
    var rule := NightActionForRole(r.players[p].role).value;
    NightMaybeResolvedKeepsSeats(r.(nightActions := r.nightActions[p := NightAction(p, target, rule.kind)]), at);
  }

  lemma NightPassKeepsSeats(r: Room, p: Id, at: int)
    requires AfterNightPass(r, p, at).Accepted?
    ensures SeatsKept(r, AfterNightPass(r, p, at).room)
  {
    hide SameButForLife, NightMaybeResolved;
    NightMaybeResolvedKeepsSeats(r.(nightActions := r.nightActions[p := NightAction(p, NO_ID, Pass)]), at);
  }

  lemma StartVoteKeepsSeats(r: Room, p: Id, at: int)
    requires AfterStartVote(r, p, at).Accepted?
    ensures SeatsKept(r, AfterStartVote(r, p, at).room)
  {
  }

  lemma PlayNeedsAnActiveGame(r: Room, e: Event, entropy: Entropy)
    requires Inv(r) && IsPlay(e.kind) && Handled(r, e, entropy).Accepted?
    ensures IsActive(r.phase)
  {
    assert ClockOk(r);
    hide Inv, NightMaybeResolved, VoteMaybeResolved, ShotResolved, TimedOut, VotingOpened;
  }

  // So nobody comes or goes, and of a seat nothing changes but whether it lives and has shot.
  lemma PlayKeepsEveryone(r: Room, e: Event, entropy: Entropy)
    requires IsPlay(e.kind) && Handled(r, e, entropy).Accepted? && (e.kind.PhaseTimeout? ==> IsActive(r.phase))
    ensures var s := Handled(r, e, entropy).room;
      && s.owner == r.owner && SameRules(r, s) && s.spectators == r.spectators && s.players.Keys == r.players.Keys
      && forall p :: p in r.players ==>
        s.players[p] == r.players[p].(alive := s.players[p].alive, shooterUsed := r.players[p].shooterUsed || (e.kind.Shoot? && e.player == p))
  {
    hide Handled;
    PlayKeepsSeats(r, e, entropy);
    SpentSeats(r, e);
    hide WithShotSpent;
  }

  lemma SpentSeats(r: Room, e: Event)
    ensures var t := WithShotSpent(r, e);
      && t.owner == r.owner && SameRules(r, t) && t.spectators == r.spectators && t.players.Keys == r.players.Keys
      && forall p :: p in r.players ==>
        t.players[p] == r.players[p].(shooterUsed := r.players[p].shooterUsed || (e.kind.Shoot? && e.player == p))
  {
    if e.kind.Shoot? && e.player in r.players {
      assert WithShotSpent(r, e).players == r.players[e.player := r.players[e.player].(shooterUsed := true)];
    } else {
      assert WithShotSpent(r, e) == r;
    }
  }
}
