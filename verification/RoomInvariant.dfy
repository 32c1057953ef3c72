// What is true of a room in every reachable state, and why every event keeps it so.

module RoomInvariant {
  import opened Order
  import opened Rules
  import opened Settings
  import opened RoomModel

  // ---- The public record ----------------------------------------------------------------------

  function DeathsIn(entry: LogEntry): seq<Id> {
    match entry.kind
    case NightEliminated(victim) => [victim]
    case PlayerExecuted(executed) => [executed]
    case ShooterFired(_, target) => [target]
    case _ => []
  }

  function ShotsIn(entry: LogEntry): seq<Id> {
    match entry.kind
    case ShooterFired(shooter, _) => [shooter]
    case _ => []
  }

  // Everyone the record reports dead, in order of report.
  function Deaths(record: seq<LogEntry>): seq<Id> {
    if record == [] then [] else Deaths(record[..|record| - 1]) + DeathsIn(record[|record| - 1])
  }

  function Shots(record: seq<LogEntry>): seq<Id> {
    if record == [] then [] else Shots(record[..|record| - 1]) + ShotsIn(record[|record| - 1])
  }

  lemma RecordGrows(record: seq<LogEntry>, entry: LogEntry)
    ensures Deaths(record + [entry]) == Deaths(record) + DeathsIn(entry)
    ensures Shots(record + [entry]) == Shots(record) + ShotsIn(entry)
  {
    assert (record + [entry])[..|record|] == record;
  }

  // Rounds never go back, and are none but those played.
  predicate RoundsOk(record: seq<LogEntry>, round: int) {
    && (forall i, j :: 0 <= i < j < |record| ==> record[i].round <= record[j].round)
    && (forall i :: 0 <= i < |record| ==> 1 <= record[i].round <= round)
  }

  predicate LivesAgree(players: Players, deaths: seq<Id>) {
    forall p :: p in players ==> (players[p].alive <==> p !in deaths)
  }

  predicate ShotsAgree(players: Players, shots: seq<Id>) {
    forall p :: p in players ==> (players[p].shooterUsed <==> p in shots)
  }

  // The record names every dead seat exactly once and no living one, and every shooter that fired
  // exactly once.
  ghost predicate RecordOk(players: Players, record: seq<LogEntry>, round: int) {
    && Distinct(Deaths(record))
    && Distinct(Shots(record))
    && LivesAgree(players, Deaths(record))
    && ShotsAgree(players, Shots(record))
    && RoundsOk(record, round)
  }

  ghost predicate RecordSeated(players: Players, record: seq<LogEntry>) {
    && (forall p :: p in Deaths(record) ==> p in players)
    && (forall p :: p in Shots(record) ==> p in players)
  }

  // ---- Seats, ballots, actions ----------------------------------------------------------------

  // Everyone has a role, and no two seats share a role other than villager.
  ghost predicate CastOk(players: Players) {
    && (forall p :: p in players ==> players[p].role != NoRole)
    && (forall p, q :: p in players && q in players && players[p].role == players[q].role != Villager ==> p == q)
  }

  ghost predicate HasKiller(players: Players) {
    exists p :: p in players && players[p].role == Killer
  }

  // Some killers live, and they are fewer than the others.
  predicate Balanced(players: Players) {
    0 < |LivingKillers(players)| < |LivingOthers(players)|
  }

  // A ballot is cast by a living seat, for a living seat or for nobody.
  ghost predicate BallotsOk(players: Players, votes: Votes) {
    forall v :: v in votes ==> IsLiving(players, v) && (votes[v] == NO_ID || IsLiving(players, votes[v]))
  }

  // The action is the player's own: what the role allows, at a living seat, or a pass.
  ghost predicate ActionOk(players: Players, p: Id, action: NightAction) {
    && HasNightAction(players, p)
    && action.player == p
    && (action == NightAction(p, NO_ID, Pass)
        || (var rule := NightActionForRole(players[p].role).value;
            && action.kind == rule.kind
            && IsLiving(players, action.target)
            && (action.target == p ==> rule.allowSelfTarget)))
  }

  ghost predicate ActionsOk(players: Players, actions: Actions) {
    forall p :: p in actions ==> ActionOk(players, p, actions[p])
  }

  ghost predicate FindingOk(players: Players, finding: Investigation, round: int) {
    && finding.target in players
    && finding.killer == IsKillerAligned(players[finding.target].role)
    && 1 <= finding.round <= round
  }

  // Investigations belong to detectives and tell the truth.
  ghost predicate FindingsOk(players: Players, known: Investigations, round: int) {
    forall d :: d in known ==>
      && d in players && players[d].role == Detective
      && forall i :: 0 <= i < |known[d]| ==> FindingOk(players, known[d][i], round)
  }

  // ---- The invariant --------------------------------------------------------------------------

  // The settings can start a game, and their durations are the ones in force.
  predicate SettingsOk(r: Room) {
    && r.base.Valid()
    && r.maxPlayers <= MAX_PLAYERS_ALLOWED
    && ValidateForStart(r.settings, r.maxPlayers, r.base) == Ok(r.durations)
  }

  // A deadline stands exactly in the timed phases, one phase duration after the phase began.
  predicate ClockOk(r: Room) {
    r.deadline == if IsActive(r.phase) then Some(r.startedAt + r.durations.For(r.phase)) else None
  }

  predicate SeatsOk(players: Players, spectators: map<Id, Spectator>, maxPlayers: int, maxSpectators: int) {
    && |players| <= maxPlayers
    && |spectators| <= maxSpectators
    && players.Keys !! spectators.Keys
    && NO_ID !in players && NO_ID !in spectators
  }

  predicate CapacityOk(r: Room) {
    SeatsOk(r.players, r.spectators, r.maxPlayers, r.maxSpectators)
  }

  ghost predicate IdleOk(r: Room) {
    && r.round == 0 && r.nightActions == map[] && r.votes == map[] && r.investigations == map[]
    && r.lastWords == NO_ID && r.result == None && r.record == []
    && (forall p :: p in r.players ==> r.players[p].alive && r.players[p].role == NoRole && !r.players[p].shooterUsed)
  }

  // What holds throughout a game, whatever the phase.
  ghost predicate GameCore(r: Room) {
    && SettingsOk(r) && CapacityOk(r)
    && r.round >= 1
    && |r.players| >= 2
    && CastOk(r.players) && HasKiller(r.players)
    && RecordOk(r.players, r.record, r.round) && RecordSeated(r.players, r.record)
    && BallotsOk(r.players, r.votes)
    && FindingsOk(r.players, r.investigations, r.round)
  }

  ghost predicate PhaseOk(r: Room) {
    match r.phase
    case Waiting => false
    case Night =>
      && ActionsOk(r.players, r.nightActions)
      && !AllNightActionsSubmitted(r.players, r.nightActions)
      && r.votes == map[]
      && (if r.round == 1 then forall p :: p in r.players ==> r.players[p].alive else Balanced(r.players))
    case DayDiscussion =>
      r.nightActions == map[] && r.votes == map[] && Balanced(r.players)
    case DayVoting =>
      r.nightActions == map[] && Balanced(r.players) && !AllLivingVoted(r.players, r.votes)
    case LastWords =>
      && r.nightActions == map[] && r.votes == map[]
      && r.lastWords in r.players && !r.players[r.lastWords].alive
      && Balanced(r.players[r.lastWords := r.players[r.lastWords].(alive := true)])
    case Finished =>
      r.nightActions == map[]
  }

  ghost predicate ActiveOk(r: Room) {
    && GameCore(r) && PhaseOk(r)
    && r.result == None
    && (r.lastWords != NO_ID <==> r.phase == LastWords)
  }

  // After the game seats may be given up, so the record may name people who are gone.
  ghost predicate FinishedOk(r: Room) {
    && r.round >= 1
    && CastOk(r.players)
    && RecordOk(r.players, r.record, r.round)
    && BallotsOk(r.players, r.votes)
    && r.nightActions == map[] && r.lastWords == NO_ID && r.result.Some?
  }

  ghost predicate Inv(r: Room) {
    && SettingsOk(r) && ClockOk(r) && CapacityOk(r)
    && (r.phase == Waiting ==> IdleOk(r))
    && (IsActive(r.phase) ==> ActiveOk(r))
    && (r.phase == Finished ==> FinishedOk(r))
  }

  // ---- The parts, one change at a time ---------------------------------------------------------

  predicate SameRoles(a: Players, b: Players) {
    a.Keys == b.Keys && forall p :: p in a ==> a[p].role == b[p].role
  }

  predicate SameCast(a: Players, b: Players) {
    && a.Keys == b.Keys
    && forall p :: p in a ==> a[p].role == b[p].role && a[p].alive == b[p].alive && a[p].shooterUsed == b[p].shooterUsed
  }

  lemma SameRolesSameCast(a: Players, b: Players)
    requires SameRoles(a, b)
    ensures CastOk(a) ==> CastOk(b)
    ensures HasKiller(a) ==> HasKiller(b)
    ensures |a| == |b|
  {
    assert |a.Keys| == |a| && |b.Keys| == |b|;
    if HasKiller(a) {
      var k :| k in a && a[k].role == Killer;
      assert k in b && b[k].role == Killer;
    }
  }

  lemma SameRolesSameFindings(a: Players, b: Players, known: Investigations, round: int, later: int)
    requires SameRoles(a, b) && FindingsOk(a, known, round) && round <= later
    ensures FindingsOk(b, known, later)
  {
    forall d | d in known
      ensures forall i :: 0 <= i < |known[d]| ==> FindingOk(b, known[d][i], later)
    {
      assert forall i :: 0 <= i < |known[d]| ==> FindingOk(a, known[d][i], round);
    }
  }

  lemma SameCastSameCounts(a: Players, b: Players)
    requires SameCast(a, b)
    ensures Living(a) == Living(b) && LivingKillers(a) == LivingKillers(b) && LivingOthers(a) == LivingOthers(b)
    ensures SameRoles(a, b)
  {
  }

  lemma SameCastSameRecord(a: Players, b: Players, record: seq<LogEntry>, round: int)
    requires SameCast(a, b)
    ensures RecordOk(a, record, round) ==> RecordOk(b, record, round)
    ensures RecordSeated(a, record) ==> RecordSeated(b, record)
  {
    hide Deaths, Shots;
  }

  lemma SlainCounts(players: Players, victims: set<Id>)
    ensures var s := Slain(players, victims);
      && Living(s) == Living(players) - victims
      && LivingKillers(s) == LivingKillers(players) - victims
      && LivingOthers(s) == LivingOthers(players) - victims
      && SameRoles(players, s)
  {
  }

  lemma DecidedOrBalanced(players: Players)
    ensures IsDecided(players) <==> !Balanced(players)
  {
    assert LivingKillers(players) == {} <==> |LivingKillers(players)| == 0;
  }

  // A living killer has something to do tonight, and a ballot to cast.
  lemma KillerIsLiving(players: Players)
    requires Balanced(players)
    ensures !AllNightActionsSubmitted(players, map[])
    ensures !AllLivingVoted(players, map[])
    ensures Living(players) != {}
  {
    var k :| k in LivingKillers(players);
    assert HasNightAction(players, k);
    assert k in Living(players);
  }

  // An entry that reports no death and no shot.
  predicate Neutral(kind: LogKind) {
    !kind.NightEliminated? && !kind.PlayerExecuted? && !kind.ShooterFired?
  }

  lemma RoundsGrow(record: seq<LogEntry>, entry: LogEntry)
    requires RoundsOk(record, entry.round) && entry.round >= 1
    ensures RoundsOk(record + [entry], entry.round)
  {
  }

  lemma NeutralGrows(record: seq<LogEntry>, entry: LogEntry)
    requires Neutral(entry.kind)
    ensures Deaths(record + [entry]) == Deaths(record) && Shots(record + [entry]) == Shots(record)
  {
    RecordGrows(record, entry);
    assert DeathsIn(entry) == [] && ShotsIn(entry) == [];
    assert Deaths(record) + [] == Deaths(record) && Shots(record) + [] == Shots(record);
    hide Deaths, Shots;
  }

  lemma NeutralRecord(players: Players, record: seq<LogEntry>, entry: LogEntry)
    requires RecordOk(players, record, entry.round) && entry.round >= 1 && Neutral(entry.kind)
    ensures RecordOk(players, record + [entry], entry.round)
    ensures RecordSeated(players, record) ==> RecordSeated(players, record + [entry])
  {
    hide Deaths, Shots, RoundsOk, LivesAgree, ShotsAgree, Distinct, Neutral;
    RoundsGrow(record, entry);
    NeutralGrows(record, entry);
  }

  lemma DistinctGrows(s: seq<Id>, x: Id)
    requires Distinct(s) && x !in s
    ensures Distinct(s + [x])
  {
  }

  lemma SlainAgrees(players: Players, deaths: seq<Id>, shots: seq<Id>, victim: Id)
    requires LivesAgree(players, deaths) && ShotsAgree(players, shots)
    ensures LivesAgree(Slain(players, {victim}), deaths + [victim])
    ensures ShotsAgree(Slain(players, {victim}), shots)
  {
  }

  lemma ShotAgrees(players: Players, deaths: seq<Id>, shots: seq<Id>, p: Id)
    requires LivesAgree(players, deaths) && ShotsAgree(players, shots) && p in players
    ensures LivesAgree(players[p := players[p].(shooterUsed := true)], deaths)
    ensures ShotsAgree(players[p := players[p].(shooterUsed := true)], shots + [p])
  {
  }

  lemma SeatedGrows(players: Players, others: Players, record: seq<LogEntry>, entry: LogEntry)
    requires RecordSeated(players, record) && others.Keys == players.Keys
    requires forall p :: p in DeathsIn(entry) || p in ShotsIn(entry) ==> p in players
    ensures RecordSeated(others, record + [entry])
  {
    RecordGrows(record, entry);
    hide Deaths, Shots, DeathsIn, ShotsIn;
  }

  lemma DeathRecord(players: Players, record: seq<LogEntry>, entry: LogEntry, victim: Id)
    requires RecordOk(players, record, entry.round) && RecordSeated(players, record) && entry.round >= 1
    requires IsLiving(players, victim) && DeathsIn(entry) == [victim] && ShotsIn(entry) == []
    ensures RecordOk(Slain(players, {victim}), record + [entry], entry.round)
    ensures RecordSeated(Slain(players, {victim}), record + [entry])
  {
    RoundsGrow(record, entry);
    RecordGrows(record, entry);
    SeatedGrows(players, Slain(players, {victim}), record, entry);
    assert victim !in Deaths(record);
    hide Deaths, Shots, RoundsOk, LivesAgree, ShotsAgree, DeathsIn, ShotsIn, RecordSeated;
    assert Deaths(record + [entry]) == Deaths(record) + [victim];
    assert Shots(record + [entry]) == Shots(record);
    DistinctGrows(Deaths(record), victim);
    hide Distinct;
    SlainAgrees(players, Deaths(record), Shots(record), victim);
    hide Slain;
  }

  lemma ShotRecord(players: Players, record: seq<LogEntry>, entry: LogEntry, p: Id, target: Id)
    requires RecordOk(players, record, entry.round) && RecordSeated(players, record) && entry.round >= 1
    requires p in players && !players[p].shooterUsed && IsLiving(players, target)
    requires entry.kind == ShooterFired(p, target)
    ensures var shot := Slain(players[p := players[p].(shooterUsed := true)], {target});
      RecordOk(shot, record + [entry], entry.round) && RecordSeated(shot, record + [entry])
  {
    var used := players[p := players[p].(shooterUsed := true)];
    RoundsGrow(record, entry);
    RecordGrows(record, entry);
    SeatedGrows(players, Slain(used, {target}), record, entry);
    assert target !in Deaths(record) && p !in Shots(record);
    hide Deaths, Shots, RoundsOk, LivesAgree, ShotsAgree, RecordSeated;
    assert Deaths(record + [entry]) == Deaths(record) + [target];
    assert Shots(record + [entry]) == Shots(record) + [p];
    DistinctGrows(Deaths(record), target);
    DistinctGrows(Shots(record), p);
    hide Distinct;
    ShotAgrees(players, Deaths(record), Shots(record), p);
    SlainAgrees(used, Deaths(record), Shots(record) + [p], target);
    hide Slain;
  }

  lemma LaterRound(players: Players, record: seq<LogEntry>, round: int)
    requires RecordOk(players, record, round)
    ensures RecordOk(players, record, round + 1)
  {
    hide Deaths, Shots, Distinct;
  }

  // ---- Changes that leave the cast alone ------------------------------------------------------

  // r and s differ at most in names, presence, readiness, spectators, owner, lock and cursor.
  ghost predicate Cosmetic(r: Room, s: Room) {
    && SameCast(r.players, s.players)
    && s == r.(players := s.players, spectators := s.spectators, owner := s.owner, locked := s.locked, updatedAt := s.updatedAt)
    && |s.spectators| <= s.maxSpectators && s.players.Keys !! s.spectators.Keys && NO_ID !in s.spectators
  }

  lemma CosmeticKeepsBallots(a: Players, b: Players, votes: Votes, actions: Actions)
    requires SameCast(a, b)
    ensures BallotsOk(a, votes) ==> BallotsOk(b, votes)
    ensures ActionsOk(a, actions) ==> ActionsOk(b, actions)
    ensures AllNightActionsSubmitted(b, actions) ==> AllNightActionsSubmitted(a, actions)
  {
    assert forall p :: HasNightAction(a, p) == HasNightAction(b, p);
    if ActionsOk(a, actions) {
      forall p | p in actions ensures ActionOk(b, p, actions[p]) {
        assert ActionOk(a, p, actions[p]);
      }
    }
  }

  lemma CosmeticKeepsCore(r: Room, s: Room)
    requires GameCore(r) && Cosmetic(r, s)
    ensures GameCore(s)
  {
    SameCastSameCounts(r.players, s.players);
    SameRolesSameCast(r.players, s.players);
    SameRolesSameFindings(r.players, s.players, r.investigations, r.round, r.round);
    SameCastSameRecord(r.players, s.players, r.record, r.round);
    CosmeticKeepsBallots(r.players, s.players, r.votes, r.nightActions);
    assert CapacityOk(s);
    hide ValidateForStart, SeatsOk, CastOk, HasKiller, RecordOk, RecordSeated, FindingsOk, BallotsOk;
  }

  lemma CosmeticKeepsPhase(r: Room, s: Room)
    requires PhaseOk(r) && Cosmetic(r, s)
    ensures PhaseOk(s)
  {
    hide ActionsOk, AllNightActionsSubmitted;
    SameCastSameCounts(r.players, s.players);
    CosmeticKeepsBallots(r.players, s.players, r.votes, r.nightActions);
    if r.phase == LastWords {
      SameCastSameCounts(r.players[r.lastWords := r.players[r.lastWords].(alive := true)],
                         s.players[s.lastWords := s.players[s.lastWords].(alive := true)]);
    }
  }

  lemma CosmeticKeepsFinished(r: Room, s: Room)
    requires FinishedOk(r) && Cosmetic(r, s)
    ensures FinishedOk(s)
  {
    SameRolesSameCast(r.players, s.players);
    SameCastSameRecord(r.players, s.players, r.record, r.round);
    CosmeticKeepsBallots(r.players, s.players, r.votes, r.nightActions);
    hide ValidateForStart, SeatsOk, CastOk, RecordOk, BallotsOk;
  }

  lemma CosmeticKeepsRest(r: Room, s: Room)
    requires Cosmetic(r, s)
    ensures SettingsOk(r) ==> SettingsOk(s)
    ensures CapacityOk(r) ==> CapacityOk(s)
    ensures ClockOk(r) ==> ClockOk(s)
    ensures IdleOk(r) ==> IdleOk(s)
  {
    SameRolesSameCast(r.players, s.players);
    hide ValidateForStart;
  }

  lemma CosmeticKeepsInv(r: Room, s: Room)
    requires Inv(r) && Cosmetic(r, s)
    ensures Inv(s)
  {
    CosmeticKeepsRest(r, s);
    hide SettingsOk, CapacityOk, ClockOk, IdleOk, GameCore, PhaseOk, FinishedOk, SameCast;
    if IsActive(r.phase) {
      CosmeticKeepsCore(r, s);
      CosmeticKeepsPhase(r, s);
    } else if r.phase == Finished {
      CosmeticKeepsFinished(r, s);
    }
  }

  // ---- The core, one change at a time ---------------------------------------------------------

  lemma NeutralEntryKeepsCore(r: Room, kind: LogKind, at: int)
    requires GameCore(r) && Neutral(kind)
    ensures GameCore(Logged(r, kind, at))
    ensures ClockOk(r) ==> ClockOk(Logged(r, kind, at))
  {
    NeutralRecord(r.players, r.record, LogEntry(kind, r.round, at));
    hide ValidateForStart, SeatsOk, CastOk, HasKiller, RecordOk, RecordSeated, FindingsOk, BallotsOk;
  }

  lemma EnteringKeepsCore(r: Room, phase: Phase, at: int)
    requires GameCore(r)
    ensures GameCore(EnterPhase(r, phase, at)) && ClockOk(EnterPhase(r, phase, at))
  {
    SettingsFacts(r);
    hide ValidateForStart, SeatsOk, CastOk, HasKiller, RecordOk, RecordSeated, FindingsOk, BallotsOk;
  }

  lemma SettingsFacts(r: Room)
    requires SettingsOk(r)
    ensures r.durations.Valid()
    ensures 2 <= r.settings.minimumPlayers <= r.maxPlayers <= 20 && LegalRoleConfiguration(r.settings.roles)
  {
    AcceptanceDependsOnMinimumOnly(r.settings, r.base, r.maxPlayers, r.maxPlayers);
  }

  lemma NewRoundKeepsCore(r: Room)
    requires GameCore(r)
    ensures GameCore(r.(round := r.round + 1))
  {
    LaterRound(r.players, r.record, r.round);
    SameRolesSameFindings(r.players, r.players, r.investigations, r.round, r.round + 1);
    hide ValidateForStart, SeatsOk, CastOk, HasKiller, RecordOk, RecordSeated, FindingsOk, BallotsOk;
  }

  // A living seat dies and the record says so; the ballots are taken away.
  ghost function Reported(r: Room, victim: Id, kind: LogKind, at: int): Room {
    Logged(r.(players := Slain(r.players, {victim}), votes := map[]), kind, at)
  }

  lemma DeathKeepsCore(r: Room, victim: Id, kind: LogKind, at: int)
    requires GameCore(r) && IsLiving(r.players, victim)
    requires kind == NightEliminated(victim) || kind == PlayerExecuted(victim)
    ensures GameCore(Reported(r, victim, kind, at))
  {
    hide ValidateForStart, CastOk, HasKiller, RecordOk, RecordSeated, FindingsOk;
    var s := Reported(r, victim, kind, at);
    SlainCounts(r.players, {victim});
    SameRolesSameCast(r.players, s.players);
    SameRolesSameFindings(r.players, s.players, r.investigations, r.round, r.round);
    DeathRecord(r.players, r.record, LogEntry(kind, r.round, at), victim);
    assert BallotsOk(s.players, map[]);
    assert CapacityOk(s);
    hide SeatsOk, BallotsOk;
  }

  // ---- Invariant from its parts ---------------------------------------------------------------

  lemma ActiveInv(s: Room)
    requires GameCore(s) && ClockOk(s) && PhaseOk(s) && IsActive(s.phase)
    requires s.result == None && (s.lastWords != NO_ID <==> s.phase == LastWords)
    ensures Inv(s)
  {
    CoreParts(s);
    hide GameCore, PhaseOk, ClockOk, SettingsOk, CapacityOk, IdleOk, FinishedOk;
  }

  lemma CoreParts(r: Room)
    requires GameCore(r)
    ensures SettingsOk(r) && CapacityOk(r)
    ensures CastOk(r.players) && BallotsOk(r.players, r.votes) && RecordOk(r.players, r.record, r.round)
  {
    hide ValidateForStart, SeatsOk, CastOk, HasKiller, RecordOk, RecordSeated, FindingsOk, BallotsOk, SettingsOk, CapacityOk;
  }

  // Entering a phase and logging it, the way every phase change ends.
  ghost function Entered(r: Room, phase: Phase, kind: LogKind, at: int): Room {
    Logged(EnterPhase(r, phase, at), kind, at)
  }

  lemma EnteredKeepsCore(r: Room, phase: Phase, kind: LogKind, at: int)
    requires GameCore(r) && Neutral(kind)
    ensures GameCore(Entered(r, phase, kind, at)) && ClockOk(Entered(r, phase, kind, at))
  {
    EnteringKeepsCore(r, phase, at);
    NeutralEntryKeepsCore(EnterPhase(r, phase, at), kind, at);
    hide GameCore;
  }

  // ---- End of a game, end of a day ------------------------------------------------------------

  lemma FinishKeepsInv(r: Room, at: int)
    requires GameCore(r) && r.nightActions == map[] && r.lastWords == NO_ID
    ensures Inv(FinishGame(r, at))
  {
    var s := EnterPhase(r, Finished, at).(result := Some(GameResult(WinnerOf(r.players), at)));
    hide ValidateForStart, SeatsOk, CastOk, HasKiller, RecordOk, RecordSeated, FindingsOk, BallotsOk;
    NeutralEntryKeepsCore(s, GameFinished(WinnerOf(r.players)), at);
  }

  // The sides are balanced, so the game goes on: a new night begins.
  lemma NightFallsKeepsInv(r: Room, at: int)
    requires GameCore(r) && r.votes == map[] && r.lastWords == NO_ID && r.result == None && Balanced(r.players)
    ensures Inv(Entered(r.(round := r.round + 1), Night, NightStarted, at).(nightActions := map[]))
  {
    NewRoundKeepsCore(r);
    assert r.round >= 1;
    hide Inv, GameCore, ClockOk, ValidateForStart;
    var next := r.(round := r.round + 1);
    var s := Entered(next, Night, NightStarted, at).(nightActions := map[]);
    EnteredKeepsCore(next, Night, NightStarted, at);
    KeptCoreWithoutActions(Entered(next, Night, NightStarted, at));
    KillerIsLiving(r.players);
    hide Balanced, AllNightActionsSubmitted;
    assert ActionsOk(s.players, map[]);
    hide ActionsOk;
    assert PhaseOk(s);
    hide PhaseOk;
    ActiveInv(s);
  }

  lemma KeptCoreWithoutActions(r: Room)
    requires GameCore(r)
    ensures GameCore(r.(nightActions := map[])) && (ClockOk(r) ==> ClockOk(r.(nightActions := map[])))
  {
    hide ValidateForStart, SeatsOk, CastOk, HasKiller, RecordOk, RecordSeated, FindingsOk, BallotsOk;
  }

  lemma AfterDayKeepsInv(r: Room, at: int)
    requires GameCore(r) && r.nightActions == map[] && r.votes == map[] && r.lastWords == NO_ID && r.result == None
    ensures Inv(AfterDay(r, at))
  {
    DecidedOrBalanced(r.players);
    hide Inv, GameCore, ValidateForStart, Balanced, IsDecided;
    if IsDecided(r.players) {
      FinishKeepsInv(r, at);
    } else {
      NightFallsKeepsInv(r, at);
      assert AfterDay(r, at) == Entered(r.(round := r.round + 1), Night, NightStarted, at).(nightActions := map[]);
    }
  }

  // ---- Night ----------------------------------------------------------------------------------

  // Only the killer kills, and whoever is aimed at is alive.
  lemma VictimFacts(players: Players, actions: Actions)
    requires CastOk(players) && ActionsOk(players, actions)
    ensures Victims(actions) <= Living(players)
    ensures forall v, w :: v in Victims(actions) && w in Victims(actions) ==> v == w
  {
    hide Blocked, Protected, ActionsOk;
    forall p | p in actions && actions[p].kind == Kill
      ensures p in players && players[p].role == Killer && IsLiving(players, actions[p].target)
    {
      KillerFacts(players, actions, p);
    }
  }

  lemma KillerFacts(players: Players, actions: Actions, p: Id)
    requires ActionsOk(players, actions) && p in actions && actions[p].kind == Kill
    ensures p in players && players[p].role == Killer && IsLiving(players, actions[p].target)
  {
    assert ActionOk(players, p, actions[p]);
  }

  // Only detectives investigate, and whoever is investigated is seated.
  lemma InvestigatorFacts(players: Players, actions: Actions)
    requires ActionsOk(players, actions)
    ensures forall p :: p in Investigators(actions) ==> p in players && players[p].role == Detective && actions[p].target in players
  {
    forall p | p in actions && actions[p].kind == Investigate
      ensures p in players && players[p].role == Detective && actions[p].target in players
    {
      assert ActionOk(players, p, actions[p]);
    }
    hide Blocked, ActionsOk;
  }

  lemma AtMostOne(s: set<Id>)
    requires forall v, w :: v in s && w in s ==> v == w
    ensures s == {} || exists v :: s == {v}
  {
    if s != {} {
      var v :| v in s;
      assert s == {v};
    }
  }

  lemma EliminationIsOneEntry(victim: Id, round: int, at: int)
    ensures EliminationLog({victim}, round, at) == [LogEntry(NightEliminated(victim), round, at)]
  {
    assert Sorted({victim})[0] in {victim};
  }

  lemma FindingsGrow(players: Players, actions: Actions, known: Investigations, round: int)
    requires CastOk(players) && ActionsOk(players, actions) && FindingsOk(players, known, round) && round >= 1
    ensures FindingsOk(players, Investigated(known, actions, players, round), round)
  {
    hide CastOk, ActionsOk, Investigators;
    InvestigatorFacts(players, actions);
    var grown := Investigated(known, actions, players, round);
    forall d | d in grown
      ensures d in players && players[d].role == Detective
      ensures forall i :: 0 <= i < |grown[d]| ==> FindingOk(players, grown[d][i], round)
    {
      var was := FindingsOf(known, d);
      assert forall i :: 0 <= i < |was| ==> FindingOk(players, was[i], round);
    }
  }

  lemma KeptCore(r: Room, known: Investigations)
    requires GameCore(r) && FindingsOk(r.players, known, r.round)
    ensures GameCore(r.(investigations := known, nightActions := map[]))
  {
    hide ValidateForStart, SeatsOk, CastOk, HasKiller, RecordOk, RecordSeated, FindingsOk, BallotsOk;
  }

  lemma DeadlyMorning(r: Room, v: Id, known: Investigations, at: int)
    requires GameCore(r) && IsLiving(r.players, v) && FindingsOk(r.players, known, r.round)
    ensures GameCore(Reported(r, v, NightEliminated(v), at).(investigations := known, nightActions := map[]))
  {
    var dead := Reported(r, v, NightEliminated(v), at);
    DeathKeepsCore(r, v, NightEliminated(v), at);
    SlainCounts(r.players, {v});
    SameRolesSameFindings(r.players, dead.players, known, r.round, r.round);
    hide GameCore, FindingsOk, Slain;
    KeptCore(dead, known);
  }

  lemma MorningKeepsCore(r: Room, at: int)
    requires GameCore(r) && ActionsOk(r.players, r.nightActions) && r.votes == map[]
    ensures GameCore(Morning(r, at))
  {
    var victims := Victims(r.nightActions);
    var known := Investigated(r.investigations, r.nightActions, r.players, r.round);
    VictimFacts(r.players, r.nightActions);
    AtMostOne(victims);
    FindingsGrow(r.players, r.nightActions, r.investigations, r.round);
    NoVotesToPrune(Slain(r.players, victims));
    hide GameCore, FindingsOk, ActionsOk, CastOk, Victims, Investigated, PrunedVotes;
    if victims == {} {
      QuietMorning(r, known, at);
    } else {
      var v :| victims == {v};
      assert v in Living(r.players);
      EliminationIsOneEntry(v, r.round, at);
      DeadlyMorning(r, v, known, at);
      hide Slain, EliminationLog;
      assert Morning(r, at) == Reported(r, v, NightEliminated(v), at).(investigations := known, nightActions := map[]);
    }
  }

  lemma QuietMorning(r: Room, known: Investigations, at: int)
    requires GameCore(r) && FindingsOk(r.players, known, r.round) && r.votes == map[]
    ensures GameCore(r.(players := Slain(r.players, {}), investigations := known,
                        record := r.record + EliminationLog({}, r.round, at), nightActions := map[], votes := map[]))
  {
    NobodySlain(r.players);
    NeutralEntryKeepsCore(r, NightNoElimination, at);
    hide GameCore, FindingsOk;
    KeptCore(Logged(r, NightNoElimination, at), known);
  }

  lemma NobodySlain(players: Players)
    ensures Slain(players, {}) == players
  {
  }

  lemma MorningGoesOn(morning: Room, at: int)
    requires GameCore(morning) && Balanced(morning.players)
    requires morning.nightActions == map[] && morning.votes == map[] && morning.lastWords == NO_ID && morning.result == None
    ensures Inv(Entered(morning, DayDiscussion, DayStarted, at))
  {
    EnteredKeepsCore(morning, DayDiscussion, DayStarted, at);
    hide Inv, GameCore, Balanced, ClockOk;
    var s := Entered(morning, DayDiscussion, DayStarted, at);
    assert PhaseOk(s);
    hide PhaseOk;
    ActiveInv(s);
  }

  lemma NightResolvedKeepsInv(r: Room, at: int)
    requires GameCore(r) && ActionsOk(r.players, r.nightActions) && r.votes == map[]
    requires r.lastWords == NO_ID && r.result == None
    ensures Inv(NightResolved(r, at))
  {
    var morning := Morning(r, at);
    MorningKeepsCore(r, at);
    DecidedOrBalanced(morning.players);
    NoVotesToPrune(morning.players);
    hide Inv, GameCore, Balanced, IsDecided, ActionsOk, Victims, Investigated, Slain, PrunedVotes, EliminationLog;
    if IsDecided(morning.players) {
      FinishKeepsInv(morning, at);
    } else {
      MorningGoesOn(morning, at);
      assert NightResolved(r, at) == Entered(morning, DayDiscussion, DayStarted, at);
    }
  }

  lemma NoVotesToPrune(players: Players)
    ensures PrunedVotes(map[], players) == map[]
  {
  }

  // ---- Voting ---------------------------------------------------------------------------------

  lemma VotersAreWanted(s: Room)
    requires s.phase == DayVoting && Balanced(s.players) && s.nightActions == map[] && s.votes == map[]
    ensures PhaseOk(s)
  {
    KillerIsLiving(s.players);
    hide Balanced, AllLivingVoted;
  }

  lemma VotingOpenedKeepsInv(r: Room, opener: Id, at: int)
    requires GameCore(r) && Balanced(r.players) && r.nightActions == map[] && r.lastWords == NO_ID && r.result == None
    requires r.votes == map[]
    ensures Inv(VotingOpened(r, opener, at))
  {
    EnteredKeepsCore(r, DayVoting, VotingStarted(opener), at);
    hide Inv, GameCore, Balanced, PhaseOk, ClockOk;
    var s := VotingOpened(r, opener, at);
    assert s == Entered(r, DayVoting, VotingStarted(opener), at);
    VotersAreWanted(s);
    hide VotingOpened, Entered;
    ActiveInv(s);
  }

  lemma ElectedLeads(votes: Votes)
    ensures Elected(votes) != NO_ID ==> LeadsAlone(votes, Elected(votes)) && exists v :: v in votes && votes[v] == Elected(votes)
  {
    var t := Elected(votes);
    if t != NO_ID {
      var ballots := set v | v in votes && votes[v] == t;
      assert |ballots| > 0;
      var v :| v in ballots;
    }
  }

  lemma ElectedIsLiving(votes: Votes, players: Players)
    ensures var e := Elected(PrunedVotes(votes, players)); e != NO_ID ==> IsLiving(players, e)
  {
    ElectedLeads(PrunedVotes(votes, players));
    hide Elected, LeadsAlone;
  }

  lemma ReviveUndoesSlain(players: Players, p: Id)
    requires IsLiving(players, p)
    ensures var s := Slain(players, {p}); p in s && !s[p].alive && s[p := s[p].(alive := true)] == players
  {
  }

  lemma NoBallots(r: Room, lastWords: Id)
    requires GameCore(r)
    ensures GameCore(r.(votes := map[])) && GameCore(r.(lastWords := lastWords))
  {
    assert BallotsOk(r.players, map[]);
    hide ValidateForStart, SeatsOk, CastOk, HasKiller, RecordOk, RecordSeated, FindingsOk, BallotsOk;
  }

  lemma ExecutionKeepsInv(r: Room, elected: Id, at: int)
    requires GameCore(r) && Balanced(r.players) && r.nightActions == map[] && r.result == None
    requires IsLiving(r.players, elected) && elected != NO_ID
    ensures Inv(Entered(Reported(r, elected, PlayerExecuted(elected), at).(lastWords := elected),
                        LastWords, LastWordsStarted(elected), at))
  {
    hide CastOk, HasKiller, RecordOk, RecordSeated, Inv, GameCore, ValidateForStart, Balanced, Slain, ClockOk;
    var executed := Reported(r, elected, PlayerExecuted(elected), at);
    DeathKeepsCore(r, elected, PlayerExecuted(elected), at);
    NoBallots(executed, elected);
    EnteredKeepsCore(executed.(lastWords := elected), LastWords, LastWordsStarted(elected), at);
    ReviveUndoesSlain(r.players, elected);
    var s := Entered(executed.(lastWords := elected), LastWords, LastWordsStarted(elected), at);
    SpeakerMayTalk(s, r.players);
    hide PhaseOk;
    ActiveInv(s);
  }

  lemma SpeakerMayTalk(s: Room, before: Players)
    requires s.phase == LastWords && s.nightActions == map[] && s.votes == map[]
    requires Balanced(before) && s.lastWords in s.players && !s.players[s.lastWords].alive
    requires s.players[s.lastWords := s.players[s.lastWords].(alive := true)] == before
    ensures PhaseOk(s)
  {
    hide Balanced;
  }

  lemma VoteResolvedKeepsInv(r: Room, at: int)
    requires GameCore(r) && Balanced(r.players) && r.nightActions == map[] && r.lastWords == NO_ID && r.result == None
    requires AllLivingVoted(r.players, r.votes)
    ensures Inv(VoteResolved(r, at))
  {
    var elected := Elected(PrunedVotes(r.votes, r.players));
    ElectedIsLiving(r.votes, r.players);
    hide Inv, GameCore, ValidateForStart, Balanced, Elected, PrunedVotes, Slain, AllLivingVoted;
    if elected == NO_ID {
      var quiet := r.(votes := map[]);
      NoBallots(r, NO_ID);
      NeutralEntryKeepsCore(quiet, VoteNoExecution, at);
      AfterDayKeepsInv(Logged(quiet, VoteNoExecution, at), at);
    } else {
      ExecutionKeepsInv(r, elected, at);
    }
  }

  // ---- Shots ----------------------------------------------------------------------------------

  lemma PrunedBallotsAreOk(votes: Votes, players: Players)
    ensures BallotsOk(players, PrunedVotes(votes, players))
  {
  }

  lemma ShotKeepsRoles(players: Players, p: Id, target: Id)
    requires p in players
    ensures SameRoles(players, Slain(players[p := players[p].(shooterUsed := true)], {target}))
  {
  }

  lemma ShotKeepsCore(r: Room, p: Id, target: Id, at: int)
    requires GameCore(r) && IsLiving(r.players, p) && IsLiving(r.players, target) && target != p
    requires !r.players[p].shooterUsed
    ensures GameCore(ShotFired(r, p, target, at))
  {
    var s := ShotFired(r, p, target, at);
    ShotRecord(r.players, r.record, LogEntry(ShooterFired(p, target), r.round, at), p, target);
    ShotKeepsRoles(r.players, p, target);
    SameRolesSameCast(r.players, s.players);
    SameRolesSameFindings(r.players, s.players, r.investigations, r.round, r.round);
    PrunedBallotsAreOk(r.votes, s.players);
    hide Slain, PrunedVotes;
    assert CapacityOk(s);
    hide ValidateForStart, SeatsOk, CastOk, HasKiller, RecordOk, RecordSeated, FindingsOk, BallotsOk, SameRoles;
  }

  lemma VoteMaybeResolvedKeepsInv(r: Room, at: int)
    requires GameCore(r) && Balanced(r.players) && r.nightActions == map[] && r.lastWords == NO_ID && r.result == None
    requires r.phase == DayVoting && ClockOk(r)
    ensures Inv(VoteMaybeResolved(r, at))
  {
    KillerIsLiving(r.players);
    hide Inv, GameCore, ValidateForStart, Balanced, ClockOk, VoteResolved, AllLivingVoted;
    if AllLivingVoted(r.players, r.votes) {
      VoteResolvedKeepsInv(r, at);
    } else {
      assert PhaseOk(r);
      hide PhaseOk;
      ActiveInv(r);
    }
  }

  // Between events of a day nobody has acted or spoken, and the sides are balanced.
  lemma DayParts(r: Room)
    requires Inv(r) && IsDay(r.phase)
    ensures GameCore(r) && ClockOk(r) && Balanced(r.players)
    ensures r.nightActions == map[] && r.lastWords == NO_ID && r.result == None
    ensures r.phase == DayDiscussion ==> r.votes == map[]
  {
    hide GameCore, Balanced, ClockOk, SettingsOk, CapacityOk, IdleOk, FinishedOk, AllLivingVoted;
  }

  lemma SettledKeepsInv(r: Room, at: int)
    requires GameCore(r) && ClockOk(r) && IsDay(r.phase)
    requires r.nightActions == map[] && r.lastWords == NO_ID && r.result == None
    requires r.phase == DayDiscussion ==> r.votes == map[]
    ensures Inv(ShotSettled(r, at))
  {
    DecidedOrBalanced(r.players);
    hide Inv, GameCore, Balanced, IsDecided, VoteMaybeResolved, ClockOk, FinishGame;
    if IsDecided(r.players) {
      FinishKeepsInv(r, at);
    } else if r.phase == DayVoting {
      VoteMaybeResolvedKeepsInv(r, at);
    } else {
      assert PhaseOk(r);
      hide PhaseOk;
      ActiveInv(r);
    }
  }

  lemma ShotLeavesTheRest(r: Room, p: Id, target: Id, at: int)
    requires p in r.players
    ensures var s := ShotFired(r, p, target, at);
      && s.phase == r.phase && s.nightActions == r.nightActions && s.lastWords == r.lastWords && s.result == r.result
      && (r.votes == map[] ==> s.votes == map[])
      && (ClockOk(r) ==> ClockOk(s))
  {
    NoVotesToPrune(ShotFired(r, p, target, at).players);
    hide Slain, PrunedVotes;
  }

  lemma ShootKeepsInv(r: Room, p: Id, target: Id, at: int)
    requires Inv(r) && IsDay(r.phase) && IsLiving(r.players, p) && IsLiving(r.players, target) && target != p
    requires !r.players[p].shooterUsed
    ensures Inv(ShotResolved(r, p, target, at))
  {
    DayParts(r);
    hide Inv, GameCore, ShotFired, ShotSettled, ClockOk, Balanced;
    ShotKeepsCore(r, p, target, at);
    ShotLeavesTheRest(r, p, target, at);
    SettledKeepsInv(ShotFired(r, p, target, at), at);
  }

  // ---- Start of a game ------------------------------------------------------------------------

  // Every seat gets the role at its place among the sorted ids, so the seats hold the deck.
  lemma IndexIsUnique(ids: seq<Id>, i: nat)
    requires Ordered(Less, ids) && i < |ids|
    ensures IndexOf(ids, ids[i]) == i
  {
    var j := IndexOf(ids, ids[i]);
    assert !Less(ids[i], ids[j]) && !Less(ids[j], ids[i]);
  }

  lemma DealtSeat(players: Players, roles: seq<Role>, q: Id)
    requires |roles| == |players| && q in players
    ensures Dealt(players, roles).Keys == players.Keys
    ensures Dealt(players, roles)[q] == players[q].(role := Dealt(players, roles)[q].role, alive := true, shooterUsed := false)
  {
    hide Sorted, IndexOf;
  }

  // The roles go to the seats in the order of their ids.
  lemma DealtRoles(players: Players, roles: seq<Role>)
    requires |roles| == |players|
    ensures var ids := Sorted(players.Keys); var dealt := Dealt(players, roles);
      && |ids| == |roles| && dealt.Keys == players.Keys
      && (forall i, j :: 0 <= i < j < |ids| ==> ids[i] != ids[j])
      && (forall p :: p in ids <==> p in players)
      && forall i :: 0 <= i < |ids| ==>
        ids[i] in players && dealt[ids[i]] == players[ids[i]].(role := roles[i], alive := true, shooterUsed := false)
  {
    hide Sorted;
    var ids := Sorted(players.Keys);
    assert |players.Keys| == |players|;
    forall i, j | 0 <= i < j < |ids| ensures ids[i] != ids[j] {
      assert Less(ids[i], ids[j]);
    }
    forall i | 0 <= i < |ids|
      ensures ids[i] in players && Dealt(players, roles)[ids[i]] == players[ids[i]].(role := roles[i], alive := true, shooterUsed := false)
    {
      assert ids[i] in players.Keys;
      IndexIsUnique(ids, i);
    }
  }

  lemma NotTwice(roles: seq<Role>, i: nat, j: nat)
    requires i < |roles| && j < |roles| && roles[i] == roles[j] && multiset(roles)[roles[i]] <= 1
    ensures i == j
  {
    if i < j {
      TwiceMeansTwo(roles, i, j);
    } else if j < i {
      TwiceMeansTwo(roles, j, i);
    }
  }

  lemma TwiceMeansTwo(s: seq<Role>, i: nat, j: nat)
    requires i < j < |s| && s[i] == s[j]
    ensures multiset(s)[s[i]] >= 2
  {
    assert s == s[..j] + s[j..];
    assert s[..j][i] == s[i] && s[j..][0] == s[j];
    assert s[i] in multiset(s[..j]) && s[i] in multiset(s[j..]);
  }

  lemma KillerIsDealt(players: Players, roles: seq<Role>)
    requires |roles| == |players| && multiset(roles)[Killer] == 1 && multiset(roles)[NoRole] == 0
    ensures HasKiller(Dealt(players, roles))
    ensures forall p :: p in players ==> p in Dealt(players, roles) && Dealt(players, roles)[p].role != NoRole
  {
    DealtRoles(players, roles);
    hide Dealt, Sorted;
    var ids := Sorted(players.Keys);
    assert Killer in multiset(roles);
    var k :| 0 <= k < |roles| && roles[k] == Killer;
    assert ids[k] in players && Dealt(players, roles)[ids[k]].role == Killer;
    forall p | p in players ensures p in Dealt(players, roles) && Dealt(players, roles)[p].role != NoRole {
      assert roles[IndexOf(ids, p)] in multiset(roles);
    }
  }

  lemma NoSpecialTwice(players: Players, roles: seq<Role>, p: Id, q: Id)
    requires |roles| == |players| && p in players && q in players
    requires p in Dealt(players, roles) && q in Dealt(players, roles)
    requires Dealt(players, roles)[p].role == Dealt(players, roles)[q].role
    requires multiset(roles)[Dealt(players, roles)[p].role] <= 1
    ensures p == q
  {
    DealtRoles(players, roles);
    hide Dealt, Sorted;
    var ids := Sorted(players.Keys);
    NotTwice(roles, IndexOf(ids, p), IndexOf(ids, q));
  }

  // Seats dealt a fair deck make a cast.
  lemma FairDeal(players: Players, roles: seq<Role>)
    requires |roles| == |players|
    requires multiset(roles)[Killer] == 1 && multiset(roles)[NoRole] == 0
    requires forall role :: role != Villager ==> multiset(roles)[role] <= 1
    ensures CastOk(Dealt(players, roles)) && HasKiller(Dealt(players, roles))
  {
    hide Dealt, HasKiller;
    KillerIsDealt(players, roles);
    DealtAlive(players, roles);
    var dealt := Dealt(players, roles);
    forall p, q | p in dealt && q in dealt && dealt[p].role == dealt[q].role != Villager ensures p == q {
      NoSpecialTwice(players, roles, p, q);
    }
  }

  lemma DealtAlive(players: Players, roles: seq<Role>)
    requires |roles| == |players|
    ensures Dealt(players, roles).Keys == players.Keys
    ensures forall p :: p in players ==> Dealt(players, roles)[p].alive && !Dealt(players, roles)[p].shooterUsed
  {
    hide Sorted;
  }

  lemma DealtIsFresh(players: Players, roles: seq<Role>)
    requires |roles| == |players|
    ensures var dealt := Dealt(players, roles);
      && dealt.Keys == players.Keys && |dealt| == |players|
      && (forall p :: p in dealt ==> dealt[p].alive && !dealt[p].shooterUsed)
  {
    DealtAlive(players, roles);
    hide Dealt;
    var dealt := Dealt(players, roles);
    assert |dealt.Keys| == |dealt| && |players.Keys| == |players|;
  }

  lemma FreshRecord(players: Players)
    requires forall p :: p in players ==> players[p].alive && !players[p].shooterUsed
    ensures RecordOk(players, [], 1) && RecordSeated(players, [])
  {
  }

  lemma ClearedKeepsCore(r: Room)
    requires SettingsOk(r) && CapacityOk(r) && |r.players| >= 2
    requires CastOk(r.players) && HasKiller(r.players)
    requires forall p :: p in r.players ==> r.players[p].alive && !r.players[p].shooterUsed
    ensures GameCore(Cleared(r, 1))
  {
    FreshRecord(r.players);
    assert FindingsOk(r.players, map[], 1) && BallotsOk(r.players, map[]);
    hide ValidateForStart, SeatsOk, CastOk, HasKiller, RecordOk, RecordSeated, FindingsOk, BallotsOk;
  }

  lemma DealtKeepsSeats(r: Room, roles: seq<Role>)
    requires SettingsOk(r) && CapacityOk(r) && |roles| == |r.players|
    ensures var s := r.(players := Dealt(r.players, roles)); SettingsOk(s) && CapacityOk(s)
  {
    DealtIsFresh(r.players, roles);
    hide Dealt, ValidateForStart;
  }

  lemma FreshGamePhase(r: Room)
    requires r.phase == Night && r.round == 1 && r.nightActions == map[] && r.votes == map[]
    requires HasKiller(r.players) && forall p :: p in r.players ==> r.players[p].alive
    ensures PhaseOk(r)
  {
    var k :| k in r.players && r.players[k].role == Killer;
    assert HasNightAction(r.players, k);
    hide Balanced;
  }

  lemma StartedKeepsInv(r: Room, p: Id, at: int, roles: seq<Role>)
    requires SettingsOk(r) && CapacityOk(r) && |roles| == |r.players| >= 2
    requires CastOk(Dealt(r.players, roles)) && HasKiller(Dealt(r.players, roles))
    ensures Inv(GameStartedRoom(r, p, at, r.durations, roles))
  {
    var dealt := r.(players := Dealt(r.players, roles));
    DealtIsFresh(r.players, roles);
    DealtKeepsSeats(r, roles);
    hide Dealt, CastOk, HasKiller, SettingsOk, CapacityOk, Inv;
    FirstNightKeepsInv(dealt, p, at);
    assert GameStartedRoom(r, p, at, r.durations, roles) == FirstNight(dealt, p, at);
  }

  ghost function FirstNight(dealt: Room, p: Id, at: int): Room {
    Logged(Logged(EnterPhase(Cleared(dealt, 1), Night, at), GameStarted(p), at), NightStarted, at)
  }

  lemma FirstNightKeepsInv(dealt: Room, p: Id, at: int)
    requires SettingsOk(dealt) && CapacityOk(dealt) && |dealt.players| >= 2
    requires CastOk(dealt.players) && HasKiller(dealt.players)
    requires forall q :: q in dealt.players ==> dealt.players[q].alive && !dealt.players[q].shooterUsed
    ensures Inv(FirstNight(dealt, p, at))
  {
    ClearedKeepsCore(dealt);
    hide CastOk, HasKiller, SettingsOk, CapacityOk, Inv, GameCore, PhaseOk, ClockOk;
    var entered := EnterPhase(Cleared(dealt, 1), Night, at);
    EnteringKeepsCore(Cleared(dealt, 1), Night, at);
    NeutralEntryKeepsCore(entered, GameStarted(p), at);
    NeutralEntryKeepsCore(Logged(entered, GameStarted(p), at), NightStarted, at);
    FreshGamePhase(FirstNight(dealt, p, at));
    ActiveInv(FirstNight(dealt, p, at));
  }

  lemma DealIsFair(players: Players, configuration: RoleConfiguration, draws: seq<nat>)
    requires 2 <= |players| <= |draws| && LegalRoleConfiguration(configuration)
    ensures var dealt := Dealt(players, ShuffledDeck(|players|, configuration, draws));
      CastOk(dealt) && HasKiller(dealt)
  {
    DeckIsFair(|players|, configuration);
    hide RoleDeck, ShuffledDeck, Dealt, CastOk, HasKiller;
    FairDeal(players, ShuffledDeck(|players|, configuration, draws));
  }

  lemma StartKeepsInv(r: Room, p: Id, at: int, entropy: Entropy)
    requires Inv(r) && AfterStartGame(r, p, at, entropy).Accepted?
    ensures Inv(AfterStartGame(r, p, at, entropy).room)
  {
    assert SettingsOk(r) && CapacityOk(r);
    SettingsFacts(r);
    assert ValidateForStart(r.settings, r.maxPlayers, r.base) == Ok(r.durations);
    hide StartRefusal, ValidateForStart, RoleDeck, ShuffledDeck, Inv, SettingsOk, CapacityOk, Dealt, CastOk, HasKiller, GameStartedRoom;
    DealIsFair(r.players, r.settings.roles, entropy.draws);
    var roles := ShuffledDeck(|r.players|, r.settings.roles, entropy.draws);
    StartedKeepsInv(r, p, at, roles);
    UpdatedAtIsCosmetic(GameStartedRoom(r, p, at, r.durations, roles), at);
  }

  lemma UpdatedAtIsCosmetic(r: Room, at: int)
    requires Inv(r)
    ensures Inv(r.(updatedAt := at))
  {
    CosmeticKeepsInv(r, r.(updatedAt := at));
  }
}
