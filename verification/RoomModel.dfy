// The room as a value, and what one event makes of it (internal/room/state.go).
//
// The transition is stated without loops, iteration orders or scratch tables: who dies at night,
// who is executed and who may win are given by properties of the night's actions, the ballots and
// the living seats. RoomState.dfy holds the program's own in-place form and proves it equal to this.

module RoomModel {
  import opened Rules
  import opened Settings

  const MAX_CHAT_BYTES := 500
  const MAX_EVENT_LOG_ENTRIES := 100

  // A reconnect token; 0 stands for the empty string.
  type Token = nat

  const NO_TOKEN: Token := 0

  datatype Player = Player(
    name: string, token: Token, ready: bool, connected: bool, role: Role, alive: bool,
    shooterUsed: bool, afk: bool, lastSequence: nat, joinedAt: int)

  datatype Spectator = Spectator(
    name: string, token: Token, connected: bool, afk: bool, lastSequence: nat, joinedAt: int)

  datatype Investigation = Investigation(round: int, target: Id, targetName: string, killer: bool)

  datatype Winner = VillagersWin | KillersWin

  datatype GameResult = GameResult(winner: Winner, finishedAt: int)

  datatype LogKind =
    | GameStarted(owner: Id)
    | NightStarted
    | DayStarted
    | NightEliminated(victim: Id)
    | NightNoElimination
    | VotingStarted(opener: Id)
    | PlayerExecuted(executed: Id)
    | LastWordsStarted(speaker: Id)
    | VoteNoExecution
    | ShooterFired(shooter: Id, target: Id)
    | PhaseTimedOut(phase: Phase)
    | GameFinished(winner: Winner)

  datatype LogEntry = LogEntry(kind: LogKind, round: int, at: int)

  type Players = map<Id, Player>
  type Votes = map<Id, Id>
  type Actions = map<Id, NightAction>
  type Investigations = map<Id, seq<Investigation>>

  // record is the whole public record since the game started; the program keeps its last entries.
  datatype Room = Room(
    phase: Phase, startedAt: int, deadline: Option<int>,
    base: PhaseDurations, durations: PhaseDurations, settings: GameSettings,
    owner: Id, players: Players, spectators: map<Id, Spectator>,
    locked: bool, maxPlayers: int, maxSpectators: int, round: int,
    nightActions: Actions, votes: Votes, investigations: Investigations,
    lastWords: Id, result: Option<GameResult>, record: seq<LogEntry>, updatedAt: int)

  // The entries of a record that the program keeps.
  function Kept(record: seq<LogEntry>): seq<LogEntry> {
    if |record| <= MAX_EVENT_LOG_ENTRIES then record else record[|record| - MAX_EVENT_LOG_ENTRIES..]
  }

  datatype EventKind =
    | Join(name: string, token: Token, spectator: bool)
    | Leave
    | Disconnect
    | Ready(ready: bool)
    | StartGame
    | Chat(message: string)
    | NightActionOn(target: Id)
    | NightPass
    | StartVote
    | Vote(target: Id)
    | Shoot(target: Id)
    | TransferOwner(target: Id)
    | KickParticipant(target: Id)
    | SetRoomLocked(locked: bool)
    | SetPlayerLimit(maxPlayers: int)
    | SetGameSettings(settings: GameSettings)
    | SetGamePreset(preset: GamePreset)
    | Presence(afk: bool)
    | ReturnToWaiting
    | PhaseTimeout
    | Unknown

  // sequence is 0 for an unsequenced event.
  datatype Event = Event(player: Id, sequence: nat, kind: EventKind, at: int)

  // What the random source yields: a fresh token, NO_TOKEN when it fails, and one draw per deck
  // position, too few when it fails.
  datatype Entropy = Entropy(token: Token, draws: seq<nat>)

  datatype Error =
    | PlayerIDRequired | PlayerNameRequired | PlayerNotFound
    | ReconnectTokenRequired | InvalidReconnectToken | OwnerOnly
    | RoomNotWaiting | RoomNotJoinable | RoomLocked | RoomFull | SpectatorLimitReached
    | WrongPhase | AlreadyFinished | NotEnoughPlayers | PlayersNotReady
    | EmptyMessage | MessageTooLong | PlayerDead | InvalidTarget | SelfTargetNotAllowed
    | RoleHasNoNightAction | ShooterOnly | ShooterAlreadyUsed | PhaseDeadlineNotReached
    | ParticipantTypeMismatch | SpectatorCannotChat | LastWordsSpeakerOnly | ParticipantNotFound
    | CannotKickOwner | KickNotAllowed | InvalidOwnerTarget
    | PlayerLimitOutOfRange | PlayerLimitBelowCurrent | PlayerLimitBelowMinimum
    | AlreadyWaiting | DuplicateClientEvent | EntropyFailure | UnknownEvent
    | SettingsRejected(reason: SettingsError)

  datatype Reply = StateReply | ChatReply(sender: Id, name: string, message: string)

  datatype Outcome = Rejected(error: Error) | Accepted(room: Room, reply: Reply)

  // ---- Seats ----------------------------------------------------------------------------------

  predicate IsSeated(r: Room, p: Id) {
    p in r.players || p in r.spectators
  }

  predicate IsLiving(players: Players, p: Id) {
    p in players && players[p].alive
  }

  function Living(players: Players): set<Id> {
    set p | p in players && players[p].alive
  }

  function LivingKillers(players: Players): set<Id> {
    set p | p in players && players[p].alive && IsKillerAligned(players[p].role)
  }

  function LivingOthers(players: Players): set<Id> {
    set p | p in players && players[p].alive && !IsKillerAligned(players[p].role)
  }

  function Connected(players: Players): set<Id> {
    set p | p in players && players[p].connected
  }

  predicate IsDay(phase: Phase) {
    phase == DayDiscussion || phase == DayVoting
  }

  predicate IsActive(phase: Phase) {
    phase != Waiting && phase != Finished
  }

  predicate HasNightAction(players: Players, p: Id) {
    IsLiving(players, p) && NightActionForRole(players[p].role).Some?
  }

  predicate AllNightActionsSubmitted(players: Players, actions: Actions) {
    forall p :: p in players ==> HasNightAction(players, p) ==> p in actions
  }

  predicate AllLivingVoted(players: Players, votes: Votes) {
    Living(players) <= votes.Keys
  }

  ghost function ConnectedOwner(owner: Id, players: Players): Id {
    if owner in players && players[owner].connected then owner
    else if Connected(players) == {} then owner
    else Least(Connected(players))
  }

  function Slain(players: Players, victims: set<Id>): Players {
    map p | p in players :: if p in victims then players[p].(alive := false) else players[p]
  }

  // ---- Phases, record, end of the game --------------------------------------------------------

  function DeadlineOf(durations: PhaseDurations, phase: Phase, at: int): Option<int> {
    if durations.For(phase) > 0 then Some(at + durations.For(phase)) else None
  }

  function EnterPhase(r: Room, phase: Phase, at: int): Room {
    r.(phase := phase, startedAt := at, deadline := DeadlineOf(r.durations, phase, at))
  }

  function Logged(r: Room, kind: LogKind, at: int): Room {
    r.(record := r.record + [LogEntry(kind, r.round, at)])
  }

  // The game is over when no killer lives, or when the killers are no fewer than the others.
  predicate IsDecided(players: Players) {
    LivingKillers(players) == {} || |LivingKillers(players)| >= |LivingOthers(players)|
  }

  function WinnerOf(players: Players): Winner {
    if LivingKillers(players) == {} then VillagersWin else KillersWin
  }

  function FinishGame(r: Room, at: int): Room {
    var winner := WinnerOf(r.players);
    Logged(EnterPhase(r, Finished, at).(result := Some(GameResult(winner, at))), GameFinished(winner), at)
  }

  // ---- Night ----------------------------------------------------------------------------------

  // Everyone a block is aimed at.
  function Blocked(actions: Actions): set<Id> {
    set p | p in actions && actions[p].kind == Block :: actions[p].target
  }

  // Everyone an unblocked protection is aimed at.
  function Protected(actions: Actions): set<Id> {
    set p | p in actions && actions[p].kind == Protect && p !in Blocked(actions) :: actions[p].target
  }

  // Everyone an unblocked kill is aimed at who is not protected.
  function Victims(actions: Actions): set<Id> {
    set p | p in actions && actions[p].kind == Kill && p !in Blocked(actions)
      && actions[p].target !in Protected(actions) :: actions[p].target
  }

  // Everyone whose investigation goes through, dead by morning or not.
  function Investigators(actions: Actions): set<Id> {
    set p | p in actions && actions[p].kind == Investigate && p !in Blocked(actions)
  }

  function Finding(players: Players, target: Id, round: int): seq<Investigation> {
    if target in players then [Investigation(round, target, players[target].name, IsKillerAligned(players[target].role))]
    else []
  }

  function FindingsOf(known: Investigations, p: Id): seq<Investigation> {
    if p in known then known[p] else []
  }

  function Investigated(known: Investigations, actions: Actions, players: Players, round: int): Investigations {
    map p | p in known.Keys + Investigators(actions) ::
      FindingsOf(known, p) + (if p in Investigators(actions) then Finding(players, actions[p].target, round) else [])
  }

  ghost function EliminationLog(victims: set<Id>, round: int, at: int): seq<LogEntry> {
    if victims == {} then [LogEntry(NightNoElimination, round, at)]
    else seq(|victims|, i requires 0 <= i < |victims| => LogEntry(NightEliminated(Sorted(victims)[i]), round, at))
  }

  function PrunedVotes(votes: Votes, players: Players): Votes {
    map v | v in votes && IsLiving(players, v) :: if IsLiving(players, votes[v]) then votes[v] else NO_ID
  }

  // The room between the deaths of the night and the morning.
  ghost function Morning(r: Room, at: int): Room {
    var victims := Victims(r.nightActions);
    var players := Slain(r.players, victims);
    r.(players := players,
       investigations := Investigated(r.investigations, r.nightActions, r.players, r.round),
       record := r.record + EliminationLog(victims, r.round, at),
       nightActions := map[],
       votes := PrunedVotes(r.votes, players))
  }

  ghost function NightResolved(r: Room, at: int): Room {
    var morning := Morning(r, at);
    if IsDecided(morning.players) then FinishGame(morning, at)
    else Logged(EnterPhase(morning, DayDiscussion, at).(votes := map[]), DayStarted, at)
  }

  ghost function NightMaybeResolved(r: Room, at: int): Room {
    if AllNightActionsSubmitted(r.players, r.nightActions) then NightResolved(r, at) else r
  }

  // ---- Day ------------------------------------------------------------------------------------

  function VotingOpened(r: Room, opener: Id, at: int): Room {
    Logged(EnterPhase(r, DayVoting, at).(votes := map[]), VotingStarted(opener), at)
  }

  function Tally(votes: Votes, target: Id): nat {
    |set v | v in votes && votes[v] == target|
  }

  // target has more ballots than every other name on a ballot.
  predicate LeadsAlone(votes: Votes, target: Id) {
    && target != NO_ID
    && Tally(votes, target) > 0
    && forall v :: v in votes && votes[v] != NO_ID && votes[v] != target ==> Tally(votes, votes[v]) < Tally(votes, target)
  }

  ghost function Elected(votes: Votes): Id {
    if exists t: Id :: LeadsAlone(votes, t) then var t: Id :| LeadsAlone(votes, t); t else NO_ID
  }

  function AfterDay(r: Room, at: int): Room {
    if IsDecided(r.players) then FinishGame(r, at)
    else Logged(EnterPhase(r.(round := r.round + 1), Night, at).(nightActions := map[]), NightStarted, at)
  }

  function Executed(r: Room, target: Id, at: int): Room {
    var executed := Logged(r.(players := Slain(r.players, {target}), votes := map[]), PlayerExecuted(target), at);
    Logged(EnterPhase(executed.(lastWords := target), LastWords, at), LastWordsStarted(target), at)
  }

  ghost function VoteResolved(r: Room, at: int): Room
    requires AllLivingVoted(r.players, r.votes)
  {
    var elected := Elected(PrunedVotes(r.votes, r.players));
    if elected == NO_ID then AfterDay(Logged(r.(votes := map[]), VoteNoExecution, at), at)
    else Executed(r, elected, at)
  }

  ghost function VoteMaybeResolved(r: Room, at: int): Room {
    if AllLivingVoted(r.players, r.votes) && Living(r.players) != {} then VoteResolved(r, at) else r
  }

  // ---- Start of a game ------------------------------------------------------------------------

  ghost function IndexOf(s: seq<Id>, p: Id): (i: nat)
    requires p in s
    ensures i < |s| && s[i] == p
  {
    var i :| 0 <= i < |s| && s[i] == p;
    i
  }

  ghost function Dealt(players: Players, roles: seq<Role>): Players
    requires |roles| == |players|
  {
    map p | p in players ::
      assert |players| == |players.Keys|;
      players[p].(role := roles[IndexOf(Sorted(players.Keys), p)], alive := true, shooterUsed := false)
  }

  predicate NonOwnersReady(players: Players, owner: Id) {
    forall p :: p in players && p != owner ==> players[p].ready
  }

  function WithoutReadiness(players: Players, owner: Id): Players {
    map p | p in players :: if p != owner then players[p].(ready := false) else players[p]
  }

  // ---- Events ---------------------------------------------------------------------------------

  function Accept(r: Room, at: int): Outcome {
    Accepted(r.(updatedAt := at), StateReply)
  }

  function LastSequence(r: Room, p: Id): Option<nat> {
    if p in r.players then Some(r.players[p].lastSequence)
    else if p in r.spectators then Some(r.spectators[p].lastSequence)
    else None
  }

  function WithSequence(r: Room, p: Id, sequence: nat): Room {
    if p in r.players then r.(players := r.players[p := r.players[p].(lastSequence := sequence)])
    else if p in r.spectators then r.(spectators := r.spectators[p := r.spectators[p].(lastSequence := sequence)])
    else r
  }

  ghost function Rejoined(r: Room, p: Id, name: string): Room
    requires p in r.players
  {
    var players := r.players[p := r.players[p].(name := name, connected := true, afk := false)];
    r.(players := players, owner := ConnectedOwner(r.owner, players))
  }

  function SpectatorRejoined(r: Room, p: Id, name: string): Room
    requires p in r.spectators
  {
    r.(spectators := r.spectators[p := r.spectators[p].(name := name, connected := true, afk := false)])
  }

  function SpectatorSeated(r: Room, p: Id, name: string, token: Token, at: int): Room {
    r.(spectators := r.spectators[p := Spectator(name, token, true, false, 0, at)])
  }

  function PlayerSeated(r: Room, p: Id, name: string, token: Token, at: int): Room {
    r.(players := r.players[p := Player(name, token, false, true, NoRole, true, false, false, 0, at)],
       owner := if r.owner == NO_ID then p else r.owner)
  }

  ghost function AfterJoin(r: Room, p: Id, kind: EventKind, at: int, entropy: Entropy): Outcome
    requires kind.Join?
  {
    if p == NO_ID then Rejected(PlayerIDRequired)
    else if kind.name == "" then Rejected(PlayerNameRequired)
    else if p in r.players then
      if kind.spectator then Rejected(ParticipantTypeMismatch)
      else if kind.token == NO_TOKEN then Rejected(ReconnectTokenRequired)
      else if kind.token != r.players[p].token then Rejected(InvalidReconnectToken)
      else Accept(Rejoined(r, p, kind.name), at)
    else if p in r.spectators then
      if !kind.spectator then Rejected(ParticipantTypeMismatch)
      else if kind.token == NO_TOKEN then Rejected(ReconnectTokenRequired)
      else if kind.token != r.spectators[p].token then Rejected(InvalidReconnectToken)
      else Accept(SpectatorRejoined(r, p, kind.name), at)
    else if r.locked then Rejected(RoomLocked)
    else if kind.spectator then
      if |r.spectators| >= r.maxSpectators then Rejected(SpectatorLimitReached)
      else if entropy.token == NO_TOKEN then Rejected(EntropyFailure)
      else Accept(SpectatorSeated(r, p, kind.name, entropy.token, at), at)
    else if r.phase != Waiting then Rejected(RoomNotJoinable)
    else if |r.players| >= r.maxPlayers then Rejected(RoomFull)
    else if entropy.token == NO_TOKEN then Rejected(EntropyFailure)
    else Accept(PlayerSeated(r, p, kind.name, entropy.token, at), at)
  }

  ghost function PlayerDropped(r: Room, p: Id): Room
    requires p in r.players
  {
    var players := r.players[p := r.players[p].(connected := false, afk := false)];
    r.(players := players, owner := if r.owner == p then ConnectedOwner(p, players) else r.owner)
  }

  function SpectatorDropped(r: Room, p: Id): Room
    requires p in r.spectators
  {
    r.(spectators := r.spectators[p := r.spectators[p].(connected := false, afk := false)])
  }

  ghost function AfterDisconnect(r: Room, p: Id, at: int): Outcome {
    if p in r.players then Accept(PlayerDropped(r, p), at)
    else if p in r.spectators then Accept(SpectatorDropped(r, p), at)
    else Rejected(ParticipantNotFound)
  }

  ghost function AfterLeave(r: Room, p: Id, at: int): Outcome {
    if r.phase == Waiting && p in r.players then
      var players := r.players - {p};
      var next := if players == map[] then NO_ID else Least(players.Keys);
      Accept(r.(players := players, owner := if r.owner == p then next else r.owner), at)
    else if r.phase == Waiting && p in r.spectators then Accept(r.(spectators := r.spectators - {p}), at)
    else AfterDisconnect(r, p, at)
  }

  function AfterReady(r: Room, p: Id, ready: bool, at: int): Outcome {
    if r.phase != Waiting then Rejected(RoomNotWaiting)
    else if p !in r.players then Rejected(PlayerNotFound)
    else Accept(r.(players := r.players[p := r.players[p].(ready := ready)]), at)
  }

  function AfterPresence(r: Room, p: Id, afk: bool, at: int): Outcome {
    if p in r.players then Accept(r.(players := r.players[p := r.players[p].(afk := afk)]), at)
    else if p in r.spectators then Accept(r.(spectators := r.spectators[p := r.spectators[p].(afk := afk)]), at)
    else Rejected(ParticipantNotFound)
  }

  function StartRefusal(r: Room, p: Id, draws: seq<nat>): (refusal: Option<Error>)
    ensures refusal.None? ==> ValidateForStart(r.settings, r.maxPlayers, r.base).Ok? && 2 <= |r.players| <= |draws|
  {
    if r.phase == Finished then Some(AlreadyFinished)
    else if r.phase != Waiting then Some(RoomNotWaiting)
    else if p != r.owner then Some(OwnerOnly)
    else
      var durations := ValidateForStart(r.settings, r.maxPlayers, r.base);
      if durations.Err? then Some(SettingsRejected(durations.error))
      else if |r.players| < r.settings.minimumPlayers then Some(NotEnoughPlayers)
      else if !NonOwnersReady(r.players, r.owner) then Some(PlayersNotReady)
      else if |draws| < |r.players| then Some(EntropyFailure)
      else None
  }

  ghost function AfterStartGame(r: Room, p: Id, at: int, entropy: Entropy): Outcome {
    match StartRefusal(r, p, entropy.draws)
    case Some(error) => Rejected(error)
    case None =>
      var durations := ValidateForStart(r.settings, r.maxPlayers, r.base).value;
      Accept(GameStartedRoom(r, p, at, durations, ShuffledDeck(|r.players|, r.settings.roles, entropy.draws)), at)
  }

  // Everything a game accumulates, cleared.
  function Cleared(r: Room, round: int): Room {
    r.(round := round, nightActions := map[], votes := map[], investigations := map[], lastWords := NO_ID,
       result := None, record := [])
  }

  ghost function GameStartedRoom(r: Room, p: Id, at: int, durations: PhaseDurations, roles: seq<Role>): Room
    requires |roles| == |r.players|
  {
    var dealt := r.(durations := durations, players := Dealt(r.players, roles));
    Logged(Logged(EnterPhase(Cleared(dealt, 1), Night, at), GameStarted(p), at), NightStarted, at)
  }

  function AfterChat(r: Room, p: Id, message: string, at: int): Outcome {
    if p in r.players && r.phase == LastWords && p != r.lastWords then Rejected(LastWordsSpeakerOnly)
    else if p in r.players && r.phase != Waiting && r.phase != Finished && r.phase != LastWords && !r.players[p].alive
    then Rejected(PlayerDead)
    else if p !in r.players && p !in r.spectators then Rejected(ParticipantNotFound)
    else if p !in r.players && IsActive(r.phase) then Rejected(SpectatorCannotChat)
    else if message == "" then Rejected(EmptyMessage)
    else if |message| > MAX_CHAT_BYTES then Rejected(MessageTooLong)
    else
      var name := if p in r.players then r.players[p].name else r.spectators[p].name;
      Accepted(r.(updatedAt := at), ChatReply(p, name, message))
  }

  ghost function AfterNightAction(r: Room, p: Id, target: Id, at: int): Outcome {
    if r.phase != Night then Rejected(WrongPhase)
    else if p !in r.players then Rejected(PlayerNotFound)
    else if !r.players[p].alive then Rejected(PlayerDead)
    else
      var rule := NightActionForRole(r.players[p].role);
      if rule.None? then Rejected(RoleHasNoNightAction)
      else if target == NO_ID || !IsLiving(r.players, target) then Rejected(InvalidTarget)
      else if target == p && !rule.value.allowSelfTarget then Rejected(SelfTargetNotAllowed)
      else
        var actions := r.nightActions[p := NightAction(p, target, rule.value.kind)];
        Accept(NightMaybeResolved(r.(nightActions := actions), at), at)
  }

  ghost function AfterNightPass(r: Room, p: Id, at: int): Outcome {
    if r.phase != Night then Rejected(WrongPhase)
    else if p !in r.players then Rejected(PlayerNotFound)
    else if !r.players[p].alive then Rejected(PlayerDead)
    else if NightActionForRole(r.players[p].role).None? then Rejected(RoleHasNoNightAction)
    else
      var actions := r.nightActions[p := NightAction(p, NO_ID, Pass)];
      Accept(NightMaybeResolved(r.(nightActions := actions), at), at)
  }

  function AfterStartVote(r: Room, p: Id, at: int): Outcome {
    if r.phase != DayDiscussion then Rejected(WrongPhase)
    else if p != r.owner then Rejected(OwnerOnly)
    else Accept(VotingOpened(r, p, at), at)
  }

  ghost function AfterVote(r: Room, p: Id, target: Id, at: int): Outcome {
    if r.phase != DayVoting then Rejected(WrongPhase)
    else if p !in r.players then Rejected(PlayerNotFound)
    else if !r.players[p].alive then Rejected(PlayerDead)
    else if target != NO_ID && !IsLiving(r.players, target) then Rejected(InvalidTarget)
    else Accept(VoteMaybeResolved(r.(votes := r.votes[p := target]), at), at)
  }

  ghost function AfterShoot(r: Room, p: Id, target: Id, at: int): Outcome {
    if !IsDay(r.phase) then Rejected(WrongPhase)
    else if p !in r.players then Rejected(PlayerNotFound)
    else if !r.players[p].alive then Rejected(PlayerDead)
    else if !CanShoot(r.players[p].role) then Rejected(ShooterOnly)
    else if r.players[p].shooterUsed then Rejected(ShooterAlreadyUsed)
    else if target == NO_ID || !IsLiving(r.players, target) then Rejected(InvalidTarget)
    else if target == p then Rejected(SelfTargetNotAllowed)
    else Accept(ShotResolved(r, p, target, at), at)
  }

  ghost function ShotFired(r: Room, p: Id, target: Id, at: int): Room
    requires p in r.players
  {
    var players := Slain(r.players[p := r.players[p].(shooterUsed := true)], {target});
    Logged(r.(players := players, votes := PrunedVotes(r.votes, players)), ShooterFired(p, target), at)
  }

  ghost function ShotSettled(fired: Room, at: int): Room {
    if IsDecided(fired.players) then FinishGame(fired, at)
    else if fired.phase == DayVoting then VoteMaybeResolved(fired, at)
    else fired
  }

  ghost function ShotResolved(r: Room, p: Id, target: Id, at: int): Room
    requires p in r.players
  {
    ShotSettled(ShotFired(r, p, target, at), at)
  }

  function AfterTransferOwner(r: Room, p: Id, target: Id, at: int): Outcome {
    if p != r.owner then Rejected(OwnerOnly)
    else if target !in r.players || !r.players[target].connected then Rejected(InvalidOwnerTarget)
    else Accept(r.(owner := target), at)
  }

  // Without this player's ballot, and with those for them abstentions.
  function VotesWithout(votes: Votes, target: Id): Votes {
    map v | v in votes && v != target :: if votes[v] == target then NO_ID else votes[v]
  }

  function Unseated(r: Room, target: Id): Room {
    r.(players := r.players - {target},
       nightActions := r.nightActions - {target},
       votes := VotesWithout(r.votes, target),
       investigations := r.investigations - {target})
  }

  function AfterKick(r: Room, p: Id, target: Id, at: int): Outcome {
    if p != r.owner then Rejected(OwnerOnly)
    else if IsActive(r.phase) then Rejected(KickNotAllowed)
    else if target == r.owner then Rejected(CannotKickOwner)
    else if target in r.players then
      Accept(Unseated(r, target), at)
    else if target in r.spectators then Accept(r.(spectators := r.spectators - {target}), at)
    else Rejected(ParticipantNotFound)
  }

  function AfterSetPlayerLimit(r: Room, p: Id, limit: int, at: int): Outcome {
    if p != r.owner then Rejected(OwnerOnly)
    else if IsActive(r.phase) then Rejected(WrongPhase)
    else if limit < MIN_PLAYERS_TO_START || limit > MAX_PLAYERS_ALLOWED then Rejected(PlayerLimitOutOfRange)
    else if limit < |r.players| then Rejected(PlayerLimitBelowCurrent)
    else if limit < r.settings.minimumPlayers then Rejected(PlayerLimitBelowMinimum)
    else Accept(r.(maxPlayers := limit), at)
  }

  function AfterSettings(r: Room, settings: GameSettings, durations: PhaseDurations, at: int): Outcome {
    Accept(r.(settings := settings, durations := durations, players := WithoutReadiness(r.players, r.owner)), at)
  }

  function AfterSetGameSettings(r: Room, p: Id, settings: GameSettings, at: int): Outcome {
    if p != r.owner then Rejected(OwnerOnly)
    else if IsActive(r.phase) then Rejected(WrongPhase)
    else
      var custom := settings.(preset := Custom);
      var durations := Validate(custom, r.maxPlayers);
      if durations.Err? then Rejected(SettingsRejected(durations.error))
      else AfterSettings(r, custom, durations.value, at)
  }

  function AfterSetGamePreset(r: Room, p: Id, preset: GamePreset, at: int): Outcome {
    if p != r.owner then Rejected(OwnerOnly)
    else if IsActive(r.phase) then Rejected(WrongPhase)
    else
      var settings := GameSettingsForPreset(preset, r.base);
      if settings.Err? then Rejected(SettingsRejected(settings.error))
      else
        var durations := ValidateForStart(settings.value, r.maxPlayers, r.base);
        if durations.Err? then Rejected(SettingsRejected(durations.error))
        else AfterSettings(r, settings.value, durations.value, at)
  }

  function SeatsReset(players: Players): Players {
    map p | p in players && players[p].connected :: players[p].(ready := false, role := NoRole, alive := true, shooterUsed := false)
  }

  function SpectatorsKept(spectators: map<Id, Spectator>): map<Id, Spectator> {
    map p | p in spectators && spectators[p].connected :: spectators[p]
  }

  ghost function WaitingAgain(r: Room, at: int): Room {
    var players := SeatsReset(r.players);
    var kept := r.(players := players, spectators := SpectatorsKept(r.spectators), owner := ConnectedOwner(r.owner, players));
    EnterPhase(Cleared(kept, 0), Waiting, at)
  }

  ghost function AfterReturnToWaiting(r: Room, p: Id, at: int): Outcome {
    if p != r.owner then Rejected(OwnerOnly)
    else if r.phase == Waiting then Rejected(AlreadyWaiting)
    else Accept(WaitingAgain(r, at), at)
  }

  // Every living actor who has not acted passes.
  function WithPasses(players: Players, actions: Actions): Actions {
    map p | p in actions.Keys + (set q | q in players && HasNightAction(players, q)) ::
      if p in actions then actions[p] else NightAction(p, NO_ID, Pass)
  }

  // Every living player who has not voted abstains.
  function WithAbstentions(players: Players, votes: Votes): Votes {
    map p | p in votes.Keys + Living(players) :: if p in votes then votes[p] else NO_ID
  }

  ghost function TimedOut(r: Room, at: int): Room
    requires IsActive(r.phase)
  {
    var expired := Logged(r, PhaseTimedOut(r.phase), at);
    match r.phase
    case Night => NightResolved(expired.(nightActions := WithPasses(r.players, r.nightActions)), at)
    case DayDiscussion => VotingOpened(expired, NO_ID, at)
    case DayVoting => VoteResolved(expired.(votes := WithAbstentions(r.players, r.votes)), at)
    case LastWords => AfterDay(expired.(lastWords := NO_ID), at)
  }

  ghost function AfterPhaseTimeout(r: Room, at: int): Outcome {
    if r.deadline.None? then Rejected(WrongPhase)
    else if at < r.deadline.value then Rejected(PhaseDeadlineNotReached)
    else if !IsActive(r.phase) then Rejected(WrongPhase)
    else Accept(TimedOut(r, at), at)
  }

  ghost function Handled(r: Room, e: Event, entropy: Entropy): Outcome {
    match e.kind
    case Join(_, _, _) => AfterJoin(r, e.player, e.kind, e.at, entropy)
    case Leave => AfterLeave(r, e.player, e.at)
    case Disconnect => AfterDisconnect(r, e.player, e.at)
    case Ready(ready) => AfterReady(r, e.player, ready, e.at)
    case StartGame => AfterStartGame(r, e.player, e.at, entropy)
    case Chat(message) => AfterChat(r, e.player, message, e.at)
    case NightActionOn(target) => AfterNightAction(r, e.player, target, e.at)
    case NightPass => AfterNightPass(r, e.player, e.at)
    case StartVote => AfterStartVote(r, e.player, e.at)
    case Vote(target) => AfterVote(r, e.player, target, e.at)
    case Shoot(target) => AfterShoot(r, e.player, target, e.at)
    case TransferOwner(target) => AfterTransferOwner(r, e.player, target, e.at)
    case KickParticipant(target) => AfterKick(r, e.player, target, e.at)
    case SetRoomLocked(locked) => if e.player != r.owner then Rejected(OwnerOnly) else Accept(r.(locked := locked), e.at)
    case SetPlayerLimit(limit) => AfterSetPlayerLimit(r, e.player, limit, e.at)
    case SetGameSettings(settings) => AfterSetGameSettings(r, e.player, settings, e.at)
    case SetGamePreset(preset) => AfterSetGamePreset(r, e.player, preset, e.at)
    case Presence(afk) => AfterPresence(r, e.player, afk, e.at)
    case ReturnToWaiting => AfterReturnToWaiting(r, e.player, e.at)
    case PhaseTimeout => AfterPhaseTimeout(r, e.at)
    case Unknown => Rejected(UnknownEvent)
  }

  predicate IsDuplicate(r: Room, e: Event) {
    e.sequence > 0 && LastSequence(r, e.player).Some? && e.sequence <= LastSequence(r, e.player).value
  }

  ghost function Step(r: Room, e: Event, entropy: Entropy): Outcome {
    if IsDuplicate(r, e) then Rejected(DuplicateClientEvent)
    else
      var outcome := Handled(r, e, entropy);
      if outcome.Accepted? && e.sequence > 0 then Accepted(WithSequence(outcome.room, e.player, e.sequence), outcome.reply)
      else outcome
  }

  function NewRoom(durations: PhaseDurations, maxSpectators: int, now: int): Room {
    Room(Waiting, now, None, durations, durations, StandardGameSettings(durations), NO_ID, map[], map[], false,
         DEFAULT_MAX_PLAYERS, maxSpectators, 0, map[], map[], map[], NO_ID, None, [], now)
  }
}
