// Phase durations and game settings (internal/room/timing.go, internal/room/settings.go).

module Settings {
  import opened Rules

  const MIN_PLAYERS_TO_START := 2
  const DEFAULT_MAX_PLAYERS := 12
  const MAX_PLAYERS_ALLOWED := 20

  const SECOND := 1_000_000_000
  const MINUTE := 60 * SECOND
  const MIN_PHASE_DURATION := SECOND
  const MAX_PHASE_DURATION := 60 * MINUTE

  datatype Phase = Waiting | Night | DayDiscussion | DayVoting | LastWords | Finished

  // Durations in nanoseconds.
  datatype PhaseDurations = PhaseDurations(night: int, discussion: int, voting: int, lastWords: int) {
    predicate Valid() {
      night > 0 && discussion > 0 && voting > 0 && lastWords > 0
    }

    function For(phase: Phase): int {
      match phase
      case Night => night
      case DayDiscussion => discussion
      case DayVoting => voting
      case LastWords => lastWords
      case _ => 0
    }
  }

  datatype GamePreset = Standard | Quick | Beginner | Advanced | Minimal | Custom

  // The text of a duration, as what it parses to: None when it does not parse. Writing a duration
  // out and parsing it back gives the same duration.
  type DurationText = Option<int>

  datatype GameSettings = GameSettings(
    preset: GamePreset,
    night: DurationText,
    discussion: DurationText,
    voting: DurationText,
    lastWords: DurationText,
    minimumPlayers: int,
    revealRolesOnDeath: bool,
    roles: RoleConfiguration)

  datatype SettingsError =
    | InvalidGamePreset
    | InvalidPhaseDuration
    | MinimumPlayersOutOfRange
    | MinimumPlayersAboveLimit
    | InvalidRoleConfiguration

  datatype Result<+T, +E> = Ok(value: T) | Err(error: E)

  function StandardGameSettings(durations: PhaseDurations): GameSettings {
    GameSettings(Standard, Some(durations.night), Some(durations.discussion), Some(durations.voting),
                 Some(durations.lastWords), MIN_PLAYERS_TO_START, false, RoleConfiguration(1, 1, 1, 0, 1))
  }

  function GameSettingsForPreset(preset: GamePreset, standard: PhaseDurations): Result<GameSettings, SettingsError> {
    match preset
    case Standard => Ok(StandardGameSettings(standard))
    case Quick => Ok(GameSettings(Quick, Some(45 * SECOND), Some(2 * MINUTE), Some(45 * SECOND), Some(15 * SECOND),
                                  4, true, RoleConfiguration(1, 1, 1, 0, 1)))
    case Beginner => Ok(GameSettings(Beginner, Some(2 * MINUTE), Some(7 * MINUTE), Some(90 * SECOND), Some(45 * SECOND),
                                     5, true, RoleConfiguration(1, 1, 1, 0, 1)))
    case Advanced => Ok(GameSettings(Advanced, Some(90 * SECOND), Some(4 * MINUTE), Some(MINUTE), Some(30 * SECOND),
                                     6, false, RoleConfiguration(1, 1, 1, 1, 1)))
    case Minimal => Ok(GameSettings(Minimal, Some(MINUTE), Some(2 * MINUTE), Some(45 * SECOND), Some(15 * SECOND),
                                    2, false, RoleConfiguration(1, 0, 0, 0, 0)))
    case Custom => Err(InvalidGamePreset)
  }

  const NAMED_PRESETS := [Standard, Quick, Beginner, Advanced, Minimal]

  // The settings of every named preset, none left out.
  function PresetCatalog(standard: PhaseDurations): (presets: seq<GameSettings>)
    ensures |presets| == |NAMED_PRESETS|
    ensures forall i :: 0 <= i < |NAMED_PRESETS| ==> GameSettingsForPreset(NAMED_PRESETS[i], standard) == Ok(presets[i])
  {
    seq(|NAMED_PRESETS|, i requires 0 <= i < |NAMED_PRESETS| =>
      assert NAMED_PRESETS[i] != Custom; GameSettingsForPreset(NAMED_PRESETS[i], standard).value)
  }

  method GamePresetCatalog(standard: PhaseDurations) returns (presets: seq<GameSettings>)
    ensures presets == PresetCatalog(standard)
  {
    presets := [];
    for i := 0 to |NAMED_PRESETS|
      invariant presets == PresetCatalog(standard)[..i]
    {
      var settings := GameSettingsForPreset(NAMED_PRESETS[i], standard);
      assert settings == Ok(PresetCatalog(standard)[i]);
      if settings.Ok? {
        presets := presets + [settings.value];
      }
    }
  }

  function ParsedDurations(s: GameSettings): Result<PhaseDurations, SettingsError> {
    if s.night.None? || s.discussion.None? || s.voting.None? || s.lastWords.None? then Err(InvalidPhaseDuration)
    else
      var durations := PhaseDurations(s.night.value, s.discussion.value, s.voting.value, s.lastWords.value);
      if durations.Valid() then Ok(durations) else Err(InvalidPhaseDuration)
  }

  predicate Configurable(duration: int) {
    MIN_PHASE_DURATION <= duration <= MAX_PHASE_DURATION
  }

  function RoomConstraintError(s: GameSettings, maxPlayers: int): Option<SettingsError> {
    if s.minimumPlayers < MIN_PLAYERS_TO_START || s.minimumPlayers > MAX_PLAYERS_ALLOWED then Some(MinimumPlayersOutOfRange)
    else if s.minimumPlayers > maxPlayers then Some(MinimumPlayersAboveLimit)
    else if !LegalRoleConfiguration(s.roles) then Some(InvalidRoleConfiguration)
    else None
  }

  function Validate(s: GameSettings, maxPlayers: int): Result<PhaseDurations, SettingsError> {
    var parsed := ParsedDurations(s);
    if parsed.Err? then parsed
    else
      var d := parsed.value;
      if !(Configurable(d.night) && Configurable(d.discussion) && Configurable(d.voting) && Configurable(d.lastWords))
      then Err(InvalidPhaseDuration)
      else
        var error := RoomConstraintError(s, maxPlayers);
        if error.Some? then Err(error.value) else parsed
  }

  function ValidateForStart(s: GameSettings, maxPlayers: int, standard: PhaseDurations): Result<PhaseDurations, SettingsError> {
    if s != StandardGameSettings(standard) then Validate(s, maxPlayers)
    else
      var parsed := ParsedDurations(s);
      if parsed.Err? then parsed
      else
        var error := RoomConstraintError(s, maxPlayers);
        if error.Some? then Err(error.value) else parsed
  }

  // The standard preset reproduces the durations it was made from, even those outside the range
  // custom settings are held to; every named preset is accepted exactly by the rooms large enough.
  lemma PresetsAreStartable(preset: GamePreset, standard: PhaseDurations, maxPlayers: int)
    requires standard.Valid() && preset != Custom
    ensures GameSettingsForPreset(preset, standard).Ok?
    ensures var s := GameSettingsForPreset(preset, standard).value;
      && s.preset == preset
      && (ValidateForStart(s, maxPlayers, standard).Ok? <==> s.minimumPlayers <= maxPlayers)
      && (preset == Standard && maxPlayers >= 2 ==> ValidateForStart(s, maxPlayers, standard) == Ok(standard))
  {
  }

  // Settings accepted for a room stay accepted, with the same durations, under every player limit
  // that is not below their minimum; accepted custom settings are also startable.
  lemma AcceptanceDependsOnMinimumOnly(s: GameSettings, standard: PhaseDurations, maxPlayers: int, other: int)
    requires ValidateForStart(s, maxPlayers, standard).Ok?
    ensures ValidateForStart(s, other, standard).Ok? <==> s.minimumPlayers <= other
    ensures s.minimumPlayers <= other ==> ValidateForStart(s, other, standard) == ValidateForStart(s, maxPlayers, standard)
    ensures ValidateForStart(s, maxPlayers, standard).value.Valid()
    ensures 2 <= s.minimumPlayers <= 20 && s.minimumPlayers <= maxPlayers && LegalRoleConfiguration(s.roles)
  {
  }
}
