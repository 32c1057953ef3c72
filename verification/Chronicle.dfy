// What every event adds to the public record: the deadline or the shot, the verdict of a night or a vote, and the
// phase that begins, in that order and nothing else (internal/room/state.go).

module Chronicle {
  import opened Rules
  import opened Settings
  import opened RoomModel
  import opened RoomInvariant
  import opened RoomRuns
  import opened Nights
  import opened Seats
  import opened Outcomes
  import opened Phases

  ghost function Died(r: Room, s: Room): set<Id> {
    set p | p in r.players && r.players[p].alive && p in s.players && !s.players[p].alive
  }

  ghost function ReportOf(died: set<Id>): LogKind {
    if died == {} then NightNoElimination else var v :| v in died; NightEliminated(v)
  }

  // How a night or a vote came out, as told by who died of it and what follows it.
  ghost function Verdict(r: Room, s: Room): seq<LogKind> {
    if r.phase == Night then [ReportOf(Died(r, s))]
    else if r.phase == DayVoting && s.phase == LastWords then [PlayerExecuted(s.lastWords)]
    else if r.phase == DayVoting && s.phase == Night then [VoteNoExecution]
    else []
  }

  // The phase that begins.
  function Opening(s: Room, opener: Id): seq<LogKind> {
    match s.phase
    case Waiting => []
    case Night => [NightStarted]
    case DayDiscussion => [DayStarted]
    case DayVoting => [VotingStarted(opener)]
    case LastWords => [LastWordsStarted(s.lastWords)]
    case Finished => if s.result.Some? then [GameFinished(s.result.value.winner)] else []
  }

  function Preface(r: Room, e: Event): seq<LogKind> {
    if e.kind.PhaseTimeout? then [PhaseTimedOut(r.phase)]
    else if e.kind.Shoot? then [ShooterFired(e.player, e.kind.target)]
    else []
  }

  // All of it belongs to the round so far, but for a night's beginning.
  function Written(kinds: seq<LogKind>, round: int, next: int, at: int): seq<LogEntry> {
    seq(|kinds|, i requires 0 <= i < |kinds| => LogEntry(kinds[i], if kinds[i].NightStarted? then next else round, at))
  }

  ghost predicate IsWritten(r: Room, preface: seq<LogKind>, opener: Id, s: Room, at: int) {
    s.record == r.record
      + Written(preface + if s.phase == r.phase then [] else Verdict(r, s) + Opening(s, opener), r.round, s.round, at)
  }

  function OpenerOf(e: Event): Id {
    if e.kind.StartVote? then e.player else NO_ID
  }

  ghost predicate RecordFollows(r: Room, e: Event, s: Room) {
    IsWritten(r, Preface(r, e), OpenerOf(e), s, e.at)
  }

  // ---- Nights -------------------------------------------------------------------------------------

  lemma WhoDied(r: Room, at: int)
    requires IsFairNight(r) && r.phase == Night
    ensures Died(r, NightResolved(r, at)) == Victims(r.nightActions)
  {
    hide Victims, NightResolved, CastOk, ActionsOk;
    MorningSeats(r, at);
    VictimFacts(r.players, r.nightActions);
    assert forall p :: p in Victims(r.nightActions) ==> p in Living(r.players);
  }

  lemma NightVerdict(r: Room, at: int)
    requires IsFairNight(r) && r.phase == Night
    ensures EliminationLog(Victims(r.nightActions), r.round, at) == Written(Verdict(r, NightResolved(r, at)), r.round, NightResolved(r, at).round, at)
  {
    hide Victims, NightResolved, CastOk, ActionsOk, EliminationLog, Died;
    var victims := Victims(r.nightActions);
    WhoDied(r, at);
    VictimFacts(r.players, r.nightActions);
    if victims == {} {
      NobodyReported(r.round, at);
    } else {
      var v :| v in victims && ReportOf(victims) == NightEliminated(v);
      assert victims == {v};
      EliminationIsOneEntry(v, r.round, at);
    }
  }

  lemma NobodyReported(round: int, at: int)
    ensures EliminationLog({}, round, at) == [LogEntry(NightNoElimination, round, at)]
  {
  }

  lemma WrittenJoins(a: seq<LogKind>, b: seq<LogKind>, round: int, next: int, at: int)
    ensures Written(a + b, round, next, at) == Written(a, round, next, at) + Written(b, round, next, at)
  {
  }

  lemma FinishWrites(r: Room, at: int)
    ensures var s := FinishGame(r, at);
      s.record == r.record + Written(Opening(s, NO_ID), r.round, s.round, at) && s.phase == Finished && s.round == r.round
  {
    hide WinnerOf;
  }

  lemma ResolvedNightWrites(r: Room, at: int)
    requires IsFairNight(r) && r.phase == Night
    ensures IsWritten(r, [], NO_ID, NightResolved(r, at), at)
  {
    hide Victims, CastOk, ActionsOk, EliminationLog, Died, Verdict, Written, IsDecided, FinishGame, IsFairNight, Morning;
    var s, morning := NightResolved(r, at), Morning(r, at);
    NightVerdict(r, at);
    FinishWrites(morning, at);
    MorningReport(r, at);
    DayWrites(morning, at);
    WrittenJoins(Verdict(r, s), Opening(s, NO_ID), r.round, s.round, at);
    assert [] + (Verdict(r, s) + Opening(s, NO_ID)) == Verdict(r, s) + Opening(s, NO_ID);
  }

  lemma MorningReport(r: Room, at: int)
    ensures Morning(r, at).record == r.record + EliminationLog(Victims(r.nightActions), r.round, at) && Morning(r, at).round == r.round
    ensures Morning(r, at).phase == r.phase
  {
    hide Victims, Investigated, PrunedVotes, EliminationLog, Slain;
  }

  lemma DayWrites(morning: Room, at: int)
    ensures Written([DayStarted], morning.round, morning.round, at) == [LogEntry(DayStarted, morning.round, at)]
  {
  }

  // A night that goes on adds nothing.
  lemma NightWrites(r: Room, at: int)
    requires IsFairNight(r) && r.phase == Night
    ensures IsWritten(r, [], NO_ID, NightMaybeResolved(r, at), at)
  {
    hide IsFairNight, NightResolved, AllNightActionsSubmitted, Verdict, Opening;
    ResolvedNightWrites(r, at);
    assert Written([], r.round, r.round, at) == [];
  }

  // ---- Votes --------------------------------------------------------------------------------------

  lemma DayEndWrites(r: Room, at: int)
    ensures var s := AfterDay(r, at);
      && s.record == r.record + Written(Opening(s, NO_ID), r.round, s.round, at) && s.phase in {Finished, Night}
      && (s.phase == Finished <==> IsDecided(r.players))
  {
    hide IsDecided, FinishGame;
    FinishWrites(r, at);
  }

  lemma ResolvedVoteWrites(r: Room, at: int)
    requires r.phase == DayVoting && AllLivingVoted(r.players, r.votes) && !IsDecided(r.players)
    ensures IsWritten(r, [], NO_ID, VoteResolved(r, at), at)
  {
    hide Elected, PrunedVotes, AllLivingVoted, AfterDay, Slain, IsDecided;
    var s, none := VoteResolved(r, at), Logged(r.(votes := map[]), VoteNoExecution, at);
    DayEndWrites(none, at);
    assert none.round == r.round && none.players == r.players;
    WrittenJoins(Verdict(r, s), Opening(s, NO_ID), r.round, s.round, at);
    assert [] + (Verdict(r, s) + Opening(s, NO_ID)) == Verdict(r, s) + Opening(s, NO_ID);
  }

  lemma VoteWrites(r: Room, at: int)
    requires r.phase == DayVoting && !IsDecided(r.players)
    ensures IsWritten(r, [], NO_ID, VoteMaybeResolved(r, at), at)
  {
    hide VoteResolved, AllLivingVoted, Verdict, Opening, IsDecided;
    if AllLivingVoted(r.players, r.votes) {
      ResolvedVoteWrites(r, at);
    }
    assert Written([], r.round, r.round, at) == [];
  }

  // ---- Shots and deadlines ------------------------------------------------------------------------

  lemma Prefaced(r: Room, told: Room, kind: LogKind, opener: Id, s: Room, at: int)
    requires told.record == r.record + [LogEntry(kind, r.round, at)] && told.round == r.round && told.phase == r.phase
    requires (r.phase == Night ==> told.players == r.players) && !kind.NightStarted?
    requires IsWritten(told, [], opener, s, at)
    ensures IsWritten(r, [kind], opener, s, at)
  {
    hide Written, Opening, ReportOf;
    var more := if s.phase == r.phase then [] else Verdict(r, s) + Opening(s, opener);
    assert Died(told, s) == Died(r, s) || r.phase != Night;
    assert Verdict(told, s) == Verdict(r, s);
    WrittenJoins([kind], more, r.round, s.round, at);
    OneWritten(kind, r.round, s.round, at);
    assert [] + more == more;
    assert r.record + ([LogEntry(kind, r.round, at)] + Written(more, r.round, s.round, at))
      == (r.record + [LogEntry(kind, r.round, at)]) + Written(more, r.round, s.round, at);
  }

  lemma OneWritten(kind: LogKind, round: int, next: int, at: int)
    requires !kind.NightStarted?
    ensures Written([kind], round, next, at) == [LogEntry(kind, round, at)]
  {
  }

  lemma VotingIsUndecided(r: Room)
    requires Inv(r) && r.phase == DayVoting
    ensures !IsDecided(r.players)
  {
    DecidedOrBalanced(r.players);
    hide IsDecided, Balanced;
  }

  lemma SettledWrites(fired: Room, at: int)
    requires IsDay(fired.phase)
    ensures IsWritten(fired, [], NO_ID, ShotSettled(fired, at), at)
  {
    hide VoteMaybeResolved, FinishGame, IsDecided, Written;
    var s := ShotSettled(fired, at);
    if IsDecided(fired.players) {
      FinishWrites(fired, at);
      assert [] + ([] + Opening(s, NO_ID)) == Opening(s, NO_ID);
    } else if fired.phase == DayVoting {
      hide Verdict;
      VoteWrites(fired, at);
    } else {
      NothingWritten(fired, at);
    }
  }

  lemma NothingWritten(r: Room, at: int)
    ensures IsWritten(r, [], NO_ID, r, at)
  {
    assert Written([] + [], r.round, r.round, at) == [];
  }

  lemma ShotWrites(r: Room, p: Id, target: Id, at: int)
    requires p in r.players && IsDay(r.phase)
    ensures IsWritten(r, [ShooterFired(p, target)], NO_ID, ShotResolved(r, p, target, at), at)
  {
    hide ShotSettled, IsWritten, Slain, PrunedVotes;
    var fired := ShotFired(r, p, target, at);
    SettledWrites(fired, at);
    Prefaced(r, fired, ShooterFired(p, target), NO_ID, ShotResolved(r, p, target, at), at);
  }

  lemma NightExpiryWrites(r: Room, at: int)
    requires Inv(r) && r.phase == Night
    ensures IsWritten(r, [PhaseTimedOut(r.phase)], NO_ID, TimedOut(r, at), at)
  {
    hide Inv, NightResolved, IsWritten, IsFairNight, WithPasses;
    NightIsFair(r);
    var filled := Logged(r, PhaseTimedOut(r.phase), at).(nightActions := WithPasses(r.players, r.nightActions));
    FilledIsFair(r, filled);
    ResolvedNightWrites(filled, at);
    Prefaced(r, filled, PhaseTimedOut(r.phase), NO_ID, TimedOut(r, at), at);
  }

  lemma VoteExpiryWrites(r: Room, at: int)
    requires Inv(r) && r.phase == DayVoting
    ensures IsWritten(r, [PhaseTimedOut(r.phase)], NO_ID, TimedOut(r, at), at)
  {
    hide Inv, VoteResolved, IsWritten, WithAbstentions, IsDecided, AllLivingVoted;
    VotingIsUndecided(r);
    AllAbstain(r.players, r.votes);
    var filled := Logged(r, PhaseTimedOut(r.phase), at).(votes := WithAbstentions(r.players, r.votes));
    ResolvedVoteWrites(filled, at);
    Prefaced(r, filled, PhaseTimedOut(r.phase), NO_ID, TimedOut(r, at), at);
  }

  lemma DayExpiryWrites(r: Room, at: int)
    requires r.phase == DayDiscussion || r.phase == LastWords
    ensures IsWritten(r, [PhaseTimedOut(r.phase)], NO_ID, TimedOut(r, at), at)
  {
    hide AfterDay, Written;
    var told, s := Logged(r, PhaseTimedOut(r.phase), at).(lastWords := if r.phase == LastWords then NO_ID else r.lastWords), TimedOut(r, at);
    assert [] + ([] + Opening(s, NO_ID)) == Opening(s, NO_ID);
    if r.phase == LastWords {
      DayEndWrites(told, at);
    } else {
      OneWritten(VotingStarted(NO_ID), r.round, s.round, at);
      assert told == Logged(r, PhaseTimedOut(r.phase), at);
    }
    assert IsWritten(told, [], NO_ID, s, at);
    hide IsWritten, TimedOut;
    Prefaced(r, told, PhaseTimedOut(r.phase), NO_ID, s, at);
  }

  lemma ExpiryWrites(r: Room, at: int)
    requires Inv(r) && IsActive(r.phase)
    ensures IsWritten(r, [PhaseTimedOut(r.phase)], NO_ID, TimedOut(r, at), at)
  {
    hide Inv, IsWritten, TimedOut;
    if r.phase == Night {
      NightExpiryWrites(r, at);
    } else if r.phase == DayVoting {
      VoteExpiryWrites(r, at);
    } else {
      DayExpiryWrites(r, at);
    }
  }

  // ---- Events -------------------------------------------------------------------------------------

  // What is written depends on nothing else, before or after.
  lemma SameWriting(r: Room, before: Room, preface: seq<LogKind>, opener: Id, s: Room, after: Room, at: int)
    requires IsWritten(before, preface, opener, s, at)
    requires before.record == r.record && before.round == r.round && before.phase == r.phase && before.players == r.players
    requires after.record == s.record && after.round == s.round && after.phase == s.phase && after.lastWords == s.lastWords && after.result == s.result
    requires after.players.Keys == s.players.Keys && forall p :: p in s.players ==> after.players[p].alive == s.players[p].alive
    ensures IsWritten(r, preface, opener, after, at)
  {
    assert Died(r, after) == Died(before, s);
    assert Verdict(r, after) == Verdict(before, s);
    assert Opening(after, opener) == Opening(s, opener);
    hide Verdict, Opening, Written;
  }

  lemma StampedWriting(r: Room, before: Room, preface: seq<LogKind>, s: Room, at: int)
    requires IsWritten(before, preface, NO_ID, s, at)
    requires before.record == r.record && before.round == r.round && before.phase == r.phase && before.players == r.players
    ensures IsWritten(r, preface, NO_ID, s.(updatedAt := at), at)
  {
    hide IsWritten;
    SameWriting(r, before, preface, NO_ID, s, s.(updatedAt := at), at);
  }

  lemma ChoiceWrites(r: Room, e: Event, entropy: Entropy)
    requires Inv(r) && IsNightChoice(e.kind) && Handled(r, e, entropy).Accepted?
    ensures RecordFollows(r, e, Handled(r, e, entropy).room)
  {
    hide Inv, IsWritten, NightMaybeResolved, IsFairNight, ChoicesOf;
    var acted := ChoiceActs(r, e, entropy);
    hide Handled;
    NightWrites(acted, e.at);
    StampedWriting(r, acted, [], NightMaybeResolved(acted, e.at), e.at);
  }

  lemma BallotWrites(r: Room, p: Id, target: Id, at: int)
    requires Inv(r) && AfterVote(r, p, target, at).Accepted?
    ensures IsWritten(r, [], NO_ID, AfterVote(r, p, target, at).room, at)
  {
    hide Inv, IsWritten, VoteMaybeResolved, IsDecided;
    VotingIsUndecided(r);
    var voted := r.(votes := r.votes[p := target]);
    VoteWrites(voted, at);
    StampedWriting(r, voted, [], VoteMaybeResolved(voted, at), at);
  }

  lemma FiringWrites(r: Room, p: Id, target: Id, at: int)
    requires AfterShoot(r, p, target, at).Accepted?
    ensures IsWritten(r, [ShooterFired(p, target)], NO_ID, AfterShoot(r, p, target, at).room, at)
  {
    hide IsWritten, ShotResolved;
    ShotWrites(r, p, target, at);
    StampedWriting(r, r, [ShooterFired(p, target)], ShotResolved(r, p, target, at), at);
  }

  lemma DeadlineWrites(r: Room, at: int)
    requires Inv(r) && AfterPhaseTimeout(r, at).Accepted?
    ensures IsWritten(r, [PhaseTimedOut(r.phase)], NO_ID, AfterPhaseTimeout(r, at).room, at)
  {
    hide Inv, IsWritten, TimedOut;
    ExpiryWrites(r, at);
    StampedWriting(r, r, [PhaseTimedOut(r.phase)], TimedOut(r, at), at);
  }

  lemma OpeningWrites(r: Room, p: Id, at: int)
    requires AfterStartVote(r, p, at).Accepted?
    ensures IsWritten(r, [], p, AfterStartVote(r, p, at).room, at)
  {
    assert [] + ([] + [VotingStarted(p)]) == [VotingStarted(p)];
    OneWritten(VotingStarted(p), r.round, r.round, at);
  }

  lemma PlayWrites(r: Room, e: Event, entropy: Entropy)
    requires Inv(r) && IsPlay(e.kind) && Handled(r, e, entropy).Accepted?
    ensures RecordFollows(r, e, Handled(r, e, entropy).room)
  {
    hide Inv, IsWritten, AfterNightAction, AfterNightPass, AfterStartVote, AfterVote, AfterShoot, AfterPhaseTimeout;
    match e.kind
    case NightActionOn(_) => ChoiceWrites(r, e, entropy);
    case NightPass => ChoiceWrites(r, e, entropy);
    case StartVote => OpeningWrites(r, e.player, e.at);
    case Vote(target) => BallotWrites(r, e.player, target, e.at);
    case Shoot(target) => FiringWrites(r, e.player, target, e.at);
    case PhaseTimeout => DeadlineWrites(r, e.at);
  }

  lemma OthersWriteNothing(r: Room, e: Event, entropy: Entropy)
    requires !IsPlay(e.kind) && !e.kind.StartGame? && !e.kind.ReturnToWaiting? && Handled(r, e, entropy).Accepted?
    ensures RecordFollows(r, e, Handled(r, e, entropy).room)
  {
    hide Handled;
    OthersKeepGame(r, e, entropy);
    assert Written([] + [], r.round, r.round, e.at) == [];
  }

  // Every event of a game adds exactly this to the public record. A start begins a new one, and a return clears it
  // (Phases.GamesStartAfresh).
  lemma EventsAreRecorded(r: Room, e: Event, entropy: Entropy)
    requires Inv(r) && !e.kind.StartGame? && !e.kind.ReturnToWaiting? && Step(r, e, entropy).Accepted?
    ensures RecordFollows(r, e, Step(r, e, entropy).room)
  {
    hide Inv, Handled, WithSequence, IsDuplicate, IsWritten, IsPlay;
    if IsPlay(e.kind) {
      PlayWrites(r, e, entropy);
    } else {
      OthersWriteNothing(r, e, entropy);
    }
    var s := Handled(r, e, entropy).room;
    SequenceKeepsGame(s, e.player, e.sequence);
    SequenceTouches(s, e.player, e.sequence);
    SameWriting(r, r, Preface(r, e), OpenerOf(e), s, Step(r, e, entropy).room, e.at);
  }
}
