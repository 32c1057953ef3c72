// What a room shows: the snapshot everyone gets and the private view of one participant
// (internal/room/state.go). The actions offered to a player are exactly those the room would accept.

module Views {
  import opened Rules
  import opened Listing
  import opened Settings
  import opened RoomModel
  import opened RoomInvariant
  import opened RoomSteps
  import opened RoomRuns

  datatype PlayerView = PlayerView(
    id: Id, name: string, ready: bool, connected: bool, owner: bool, alive: bool, afk: bool, role: Option<Role>)

  datatype SpectatorView = SpectatorView(id: Id, name: string, connected: bool, afk: bool)

  datatype Snapshot = Snapshot(
    owner: Id, phase: Phase, startedAt: int, deadline: Option<int>, round: int,
    players: seq<PlayerView>, spectators: seq<SpectatorView>,
    locked: bool, maxPlayers: int, maxSpectators: int, settings: GameSettings, presets: seq<GameSettings>,
    lastWords: Id, result: Option<GameResult>, log: seq<LogEntry>, updatedAt: int)

  datatype Offer = OfferNightAction | OfferNightPass | OfferVote | OfferShoot

  datatype PrivateView =
    | SpectatorOnly(token: Token)
    | PlayerOnly(token: Token, role: Role, alive: bool, actionRequired: bool, available: seq<Offer>,
                 canVote: bool, votedFor: Id, canShoot: bool, investigations: seq<Investigation>)

  // ---- The snapshot ---------------------------------------------------------------------------

  function ViewOf(r: Room, p: Id): PlayerView
    requires p in r.players
  {
    var player := r.players[p];
    var shown := r.phase == Finished || (r.settings.revealRolesOnDeath && r.phase != Waiting && !player.alive);
    PlayerView(p, player.name, player.ready, player.connected, p == r.owner, player.alive || r.phase == Waiting, player.afk,
               if shown then Some(player.role) else None)
  }

  function SpectatorViewOf(r: Room, p: Id): SpectatorView
    requires p in r.spectators
  {
    SpectatorView(p, r.spectators[p].name, r.spectators[p].connected, r.spectators[p].afk)
  }

  function PlayerLabels(players: Players): set<Label> {
    set p | p in players :: Label(players[p].name, p)
  }

  function SpectatorLabels(spectators: map<Id, Spectator>): set<Label> {
    set p | p in spectators :: Label(spectators[p].name, p)
  }

  // The views of these players, in this order.
  function PlayerViews(r: Room, order: seq<Label>): (views: seq<PlayerView>)
    requires forall x :: x in order ==> x.id in r.players
    ensures |views| == |order|
    ensures forall i :: 0 <= i < |order| ==> order[i] in order && views[i] == ViewOf(r, order[i].id)
  {
    seq(|order|, i requires 0 <= i < |order| => assert order[i] in order; ViewOf(r, order[i].id))
  }

  function SpectatorViews(r: Room, order: seq<Label>): (views: seq<SpectatorView>)
    requires forall x :: x in order ==> x.id in r.spectators
    ensures |views| == |order|
    ensures forall i :: 0 <= i < |order| ==> order[i] in order && views[i] == SpectatorViewOf(r, order[i].id)
  {
    seq(|order|, i requires 0 <= i < |order| => assert order[i] in order; SpectatorViewOf(r, order[i].id))
  }

  ghost function SnapshotOf(r: Room): Snapshot {
    Snapshot(r.owner, r.phase, r.startedAt, r.deadline, r.round,
             PlayerViews(r, Listed(PlayerLabels(r.players))), SpectatorViews(r, Listed(SpectatorLabels(r.spectators))),
             r.locked, r.maxPlayers, r.maxSpectators, r.settings, PresetCatalog(r.base), r.lastWords, r.result,
             Kept(r.record), r.updatedAt)
  }

  // Everyone seated is listed once, by name and among namesakes by id; nothing else would be.
  lemma EveryoneIsListed(r: Room)
    ensures var players := SnapshotOf(r).players;
      && (forall p :: p in r.players ==> ViewOf(r, p) in players)
      && (forall i :: 0 <= i < |players| ==> players[i].id in r.players && players[i] == ViewOf(r, players[i].id))
      && (forall i, j :: 0 <= i < j < |players| ==> Earlier(Label(players[i].name, players[i].id), Label(players[j].name, players[j].id)))
  {
    hide ViewOf, PresetCatalog, Kept, Earlier;
    var labels := PlayerLabels(r.players);
    var order, players := Listed(labels), SnapshotOf(r).players;
    assert players == PlayerViews(r, order);
    forall i | 0 <= i < |players|
      ensures order[i] in labels && order[i] == Label(players[i].name, players[i].id) && players[i] == ViewOf(r, players[i].id)
    {
      assert order[i] in order;
      ViewIsNamed(r, order[i].id);
    }
    forall p | p in r.players ensures ViewOf(r, p) in players {
      assert Label(r.players[p].name, p) in labels;
      var i :| 0 <= i < |order| && order[i] == Label(r.players[p].name, p);
      assert players[i] == ViewOf(r, p);
    }
  }

  // A player's role is listed exactly when the game is over, or they are dead in a running or finished game that
  // reveals the roles of the dead; and then it is the role they have.
  lemma RolesAreListedExactly(r: Room)
    ensures forall view :: view in SnapshotOf(r).players ==>
      && view.id in r.players
      && (view.role.Some? <==> r.phase == Finished || (r.settings.revealRolesOnDeath && r.phase != Waiting && !r.players[view.id].alive))
      && (view.role.Some? ==> view.role.value == r.players[view.id].role)
  {
    EveryoneIsListed(r);
    var players := SnapshotOf(r).players;
    hide SnapshotOf, Earlier;
    forall view | view in players ensures exists i :: 0 <= i < |players| && players[i] == view {
    }
  }

  lemma ViewIsNamed(r: Room, p: Id)
    requires p in r.players
    ensures ViewOf(r, p).id == p && ViewOf(r, p).name == r.players[p].name
  {
  }

  // ---- The private view -----------------------------------------------------------------------

  predicate ActsTonight(r: Room, p: Id) {
    r.phase == Night && HasNightAction(r.players, p)
  }

  predicate MayVote(r: Room, p: Id) {
    r.phase == DayVoting && IsLiving(r.players, p)
  }

  predicate MayShoot(r: Room, p: Id) {
    IsDay(r.phase) && IsLiving(r.players, p) && CanShoot(r.players[p].role) && !r.players[p].shooterUsed
  }

  function Offers(r: Room, p: Id): seq<Offer> {
    (if ActsTonight(r, p) then [OfferNightAction, OfferNightPass] else [])
    + (if MayVote(r, p) then [OfferVote] else [])
    + (if MayShoot(r, p) then [OfferShoot] else [])
  }

  function PrivateViewOf(r: Room, p: Id): Option<PrivateView> {
    if p in r.players then
      var player := r.players[p];
      Some(PlayerOnly(
        player.token,
        if r.phase == Waiting then NoRole else player.role,
        player.alive || r.phase == Waiting,
        ActsTonight(r, p) && p !in r.nightActions,
        Offers(r, p),
        MayVote(r, p),
        if MayVote(r, p) && p in r.votes then r.votes[p] else NO_ID,
        MayShoot(r, p),
        FindingsOf(r.investigations, p)))
    else if p in r.spectators then Some(SpectatorOnly(r.spectators[p].token))
    else None
  }

  // In a game a player is told their own role, whether they live, what they have found out and their own ballot.
  lemma PrivateViewTells(r: Room, p: Id)
    requires p in r.players && r.phase != Waiting
    ensures PrivateViewOf(r, p).Some? && PrivateViewOf(r, p).value.PlayerOnly?
    ensures var view := PrivateViewOf(r, p).value;
      && view.token == r.players[p].token && view.role == r.players[p].role && view.alive == r.players[p].alive
      && (view.investigations == if p in r.investigations then r.investigations[p] else [])
      && (view.canVote <==> r.phase == DayVoting && r.players[p].alive)
      && (view.votedFor == if r.phase == DayVoting && r.players[p].alive && p in r.votes then r.votes[p] else NO_ID)
      && (view.canShoot <==> IsDay(r.phase) && r.players[p].alive && r.players[p].role == Shooter && !r.players[p].shooterUsed)
  {
  }

  // ---- What is offered is what is accepted ----------------------------------------------------

  function OfferOf(kind: EventKind): Option<Offer> {
    match kind
    case NightActionOn(_) => Some(OfferNightAction)
    case NightPass => Some(OfferNightPass)
    case Vote(_) => Some(OfferVote)
    case Shoot(_) => Some(OfferShoot)
    case _ => None
  }

  ghost predicate Takes(r: Room, p: Id, offer: Offer, e: Event, entropy: Entropy) {
    e.player == p && OfferOf(e.kind) == Some(offer) && Step(r, e, entropy).Accepted?
  }

  lemma TwoLive(r: Room)
    requires Inv(r) && (r.phase == Night || IsDay(r.phase))
    ensures |Living(r.players)| >= 2 && CapacityOk(r)
  {
    if r.phase == Night && r.round == 1 {
      NightParts(r);
      assert Living(r.players) == r.players.Keys;
      assert |r.players.Keys| >= 2;
    } else {
      SomeLive(r);
    }
    hide GameCore, PhaseOk, SettingsOk, ClockOk, SeatsOk;
  }

  // Whoever acts at night or shoots by day has someone else to aim at.
  lemma AnotherLives(r: Room, p: Id)
    requires Inv(r) && (r.phase == Night || IsDay(r.phase)) && IsLiving(r.players, p)
    ensures exists q :: q != p && q != NO_ID && IsLiving(r.players, q)
  {
    hide Inv;
    TwoLive(r);
    var living := Living(r.players);
    assert p in living && |living - {p}| == |living| - 1;
    var q :| q in living - {p};
    assert IsLiving(r.players, q);
  }

  lemma SomeLive(r: Room)
    requires Inv(r) && (IsDay(r.phase) || (r.phase == Night && r.round > 1))
    ensures |Living(r.players)| >= 2
  {
    hide GameCore, ActionsOk, SettingsOk, ClockOk, CapacityOk;
    assert Balanced(r.players);
    hide Inv;
    assert Living(r.players) == LivingKillers(r.players) + LivingOthers(r.players);
    assert LivingKillers(r.players) !! LivingOthers(r.players);
  }

  predicate Offered(r: Room, p: Id, offer: Offer) {
    match offer
    case OfferNightAction => ActsTonight(r, p)
    case OfferNightPass => ActsTonight(r, p)
    case OfferVote => MayVote(r, p)
    case OfferShoot => MayShoot(r, p)
  }

  lemma OffersListed(r: Room, p: Id, offer: Offer)
    ensures offer in Offers(r, p) <==> Offered(r, p, offer)
  {
    hide ActsTonight, MayVote, MayShoot;
  }

  lemma WhatIsOfferedIsTaken(r: Room, p: Id, offer: Offer)
    requires Inv(r) && Offered(r, p, offer)
    ensures exists e, entropy :: Takes(r, p, offer, e, entropy)
  {
    hide Inv, NightMaybeResolved, VoteMaybeResolved, ShotResolved, AfterJoin, AfterLeave, AfterDisconnect, AfterStartGame, AfterKick,
      AfterSetPlayerLimit, AfterSetGameSettings, AfterSetGamePreset, AfterReady, AfterPresence, AfterChat, AfterTransferOwner,
      AfterReturnToWaiting, AfterStartVote, AfterPhaseTimeout, LastSequence, WithSequence;
    if r.phase == Night || IsDay(r.phase) {
      AnotherLives(r, p);
    }
    var q :| q != p && q != NO_ID && IsLiving(r.players, q);
    var kind := match offer
      case OfferNightAction => NightActionOn(q)
      case OfferNightPass => NightPass
      case OfferVote => Vote(NO_ID)
      case OfferShoot => Shoot(q);
    var e, entropy := Event(p, 0, kind, 0), Entropy(NO_TOKEN, []);
    assert Takes(r, p, offer, e, entropy);
  }

  lemma WhatIsTakenIsOffered(r: Room, p: Id, offer: Offer, e: Event, entropy: Entropy)
    requires Takes(r, p, offer, e, entropy)
    ensures Offered(r, p, offer)
  {
    hide NightMaybeResolved, VoteMaybeResolved, ShotResolved;
  }

  // A player is offered an action exactly when the room would accept some event of that kind from
  // them; everyone else, and every spectator, is offered nothing and would be refused.
  lemma OffersAreExact(r: Room, p: Id, offer: Offer)
    requires Reachable(r)
    ensures offer in Offers(r, p) <==> exists e, entropy :: Takes(r, p, offer, e, entropy)
    ensures var view := PrivateViewOf(r, p);
      (view.Some? && view.value.PlayerOnly? && offer in view.value.available) <==> exists e, entropy :: Takes(r, p, offer, e, entropy)
  {
    hide Offers, Inv, Takes;
    ReachableInv(r);
    OffersListed(r, p, offer);
    if Offered(r, p, offer) {
      WhatIsOfferedIsTaken(r, p, offer);
    } else if e, entropy :| Takes(r, p, offer, e, entropy) {
      WhatIsTakenIsOffered(r, p, offer, e, entropy);
      assert false;
    }
  }

  // The players told that the night waits for them are exactly those it waits for, and there is one.
  lemma TheNightSaysWhoItWaitsFor(r: Room)
    requires Reachable(r) && r.phase == Night
    ensures exists p :: p in r.players && PrivateViewOf(r, p).value.actionRequired
    ensures forall p :: p in r.players ==>
      (PrivateViewOf(r, p).value.actionRequired <==> HasNightAction(r.players, p) && p !in r.nightActions)
  {
    NobodyWaitsInVain(r);
    var p :| HasNightAction(r.players, p) && p !in r.nightActions;
    assert PrivateViewOf(r, p).value.actionRequired;
  }

  // ---- What is not shown ----------------------------------------------------------------------

  predicate SameSeat(a: Player, b: Player) {
    a.name == b.name && a.ready == b.ready && a.connected == b.connected && a.alive == b.alive && a.afk == b.afk
  }

  // The seats differ at most in roles, tokens, cursors, spent shots and times of joining.
  ghost predicate SameSeats(a: Players, b: Players) {
    a.Keys == b.Keys && forall p :: p in a ==> SameSeat(a[p], b[p])
  }

  ghost predicate SameStands(a: map<Id, Spectator>, b: map<Id, Spectator>) {
    a.Keys == b.Keys && forall p :: p in a ==> a[p].name == b[p].name && a[p].connected == b[p].connected && a[p].afk == b[p].afk
  }

  // The player's role is nobody's secret any more.
  predicate RoleIsOut(r: Room, p: Id)
    requires p in r.players
  {
    r.phase == Finished || (r.phase != Waiting && !r.players[p].alive && r.settings.revealRolesOnDeath)
  }

  // r and s differ at most in what nobody but its owner may see: roles not out, tokens, cursors,
  // spent shots, ballots, night actions and investigations.
  ghost predicate LooksAlike(r: Room, s: Room) {
    && s == r.(players := s.players, spectators := s.spectators, nightActions := s.nightActions, votes := s.votes,
               investigations := s.investigations, durations := s.durations)
    && SameSeats(r.players, s.players) && SameStands(r.spectators, s.spectators)
    && (forall p :: p in r.players && RoleIsOut(r, p) ==> r.players[p].role == s.players[p].role)
  }

  // Everything else is shown: two rooms give the same snapshot exactly if they agree in all of this.
  ghost predicate ShowTheSame(r: Room, s: Room) {
    && r.owner == s.owner && r.phase == s.phase && r.startedAt == s.startedAt && r.deadline == s.deadline && r.round == s.round
    && r.locked == s.locked && r.maxPlayers == s.maxPlayers && r.maxSpectators == s.maxSpectators
    && r.settings == s.settings && r.base == s.base && r.lastWords == s.lastWords && r.result == s.result
    && Kept(r.record) == Kept(s.record) && r.updatedAt == s.updatedAt
    && r.players.Keys == s.players.Keys && SameStands(r.spectators, s.spectators)
    && (forall p :: p in r.players ==> ShowTheSamePlayer(r, s, p))
  }

  ghost predicate ShowTheSamePlayer(r: Room, s: Room, p: Id) {
    && p in r.players && p in s.players
    && (var a, b := r.players[p], s.players[p];
        && a.name == b.name && a.ready == b.ready && a.connected == b.connected && a.afk == b.afk
        && (r.phase != Waiting ==> a.alive == b.alive)
        && (RoleIsOut(r, p) ==> a.role == b.role))
  }

  lemma SameViewExactly(r: Room, s: Room, p: Id)
    requires r.owner == s.owner && r.phase == s.phase && r.settings == s.settings && p in r.players && p in s.players
    ensures ViewOf(r, p) == ViewOf(s, p) <==> ShowTheSamePlayer(r, s, p)
  {
  }

  lemma SameListing(r: Room, s: Room)
    requires r.players.Keys == s.players.Keys && forall p :: p in r.players ==> ViewOf(r, p) == ViewOf(s, p)
    ensures PlayerViews(r, Listed(PlayerLabels(r.players))) == PlayerViews(s, Listed(PlayerLabels(s.players)))
  {
    forall p | p in r.players ensures r.players[p].name == s.players[p].name {
      ViewIsNamed(r, p);
      ViewIsNamed(s, p);
    }
    assert PlayerLabels(r.players) == PlayerLabels(s.players);
    hide ViewOf;
  }

  lemma SameSpectatorListing(r: Room, s: Room)
    requires SameStands(r.spectators, s.spectators)
    ensures SpectatorViews(r, Listed(SpectatorLabels(r.spectators))) == SpectatorViews(s, Listed(SpectatorLabels(s.spectators)))
  {
    assert SpectatorLabels(r.spectators) == SpectatorLabels(s.spectators);
    assert forall p :: p in r.spectators ==> SpectatorViewOf(r, p) == SpectatorViewOf(s, p);
  }

  // Who is listed can be read off the list.
  lemma SeatedIsListed(r: Room, views: seq<PlayerView>, p: Id) returns (i: nat)
    requires views == PlayerViews(r, Listed(PlayerLabels(r.players))) && p in r.players
    ensures i < |views| && views[i].id == p && views[i] == ViewOf(r, p)
  {
    hide ViewOf;
    var order := Listed(PlayerLabels(r.players));
    assert Label(r.players[p].name, p) in PlayerLabels(r.players);
    i :| 0 <= i < |order| && order[i] == Label(r.players[p].name, p);
    ViewIsNamed(r, p);
  }

  lemma ListedIsSeated(r: Room, views: seq<PlayerView>, i: nat)
    requires views == PlayerViews(r, Listed(PlayerLabels(r.players))) && i < |views|
    ensures views[i].id in r.players && views[i] == ViewOf(r, views[i].id)
  {
    hide ViewOf;
    ViewIsNamed(r, Listed(PlayerLabels(r.players))[i].id);
  }

  lemma SpectatorIsListed(r: Room, views: seq<SpectatorView>, p: Id) returns (i: nat)
    requires views == SpectatorViews(r, Listed(SpectatorLabels(r.spectators))) && p in r.spectators
    ensures i < |views| && views[i].id == p && views[i] == SpectatorViewOf(r, p)
  {
    var order := Listed(SpectatorLabels(r.spectators));
    assert Label(r.spectators[p].name, p) in SpectatorLabels(r.spectators);
    i :| 0 <= i < |order| && order[i] == Label(r.spectators[p].name, p);
  }

  lemma ListedIsSpectator(r: Room, views: seq<SpectatorView>, i: nat)
    requires views == SpectatorViews(r, Listed(SpectatorLabels(r.spectators))) && i < |views|
    ensures views[i].id in r.spectators && views[i] == SpectatorViewOf(r, views[i].id)
  {
  }

  lemma ListedToo(r: Room, s: Room, p: Id)
    requires PlayerViews(r, Listed(PlayerLabels(r.players))) == PlayerViews(s, Listed(PlayerLabels(s.players))) && p in r.players
    ensures p in s.players && ViewOf(r, p) == ViewOf(s, p)
  {
    hide ViewOf, PlayerViews;
    var views := PlayerViews(r, Listed(PlayerLabels(r.players)));
    var i := SeatedIsListed(r, views, p);
    ListedIsSeated(s, views, i);
  }

  lemma StandsToo(r: Room, s: Room, p: Id)
    requires SpectatorViews(r, Listed(SpectatorLabels(r.spectators))) == SpectatorViews(s, Listed(SpectatorLabels(s.spectators)))
    requires p in r.spectators
    ensures p in s.spectators && SpectatorViewOf(r, p) == SpectatorViewOf(s, p)
  {
    hide SpectatorViews;
    var views := SpectatorViews(r, Listed(SpectatorLabels(r.spectators)));
    var i := SpectatorIsListed(r, views, p);
    ListedIsSpectator(s, views, i);
  }

  lemma SameStandsIfListed(r: Room, s: Room)
    requires SpectatorViews(r, Listed(SpectatorLabels(r.spectators))) == SpectatorViews(s, Listed(SpectatorLabels(s.spectators)))
    ensures SameStands(r.spectators, s.spectators)
  {
    hide SpectatorViews, SpectatorLabels;
    forall p | p in r.spectators ensures p in s.spectators && SpectatorViewOf(r, p) == SpectatorViewOf(s, p) {
      StandsToo(r, s, p);
    }
    forall p | p in s.spectators ensures p in r.spectators {
      StandsToo(s, r, p);
    }
  }

  lemma SamePlayersIfListed(r: Room, s: Room)
    requires PlayerViews(r, Listed(PlayerLabels(r.players))) == PlayerViews(s, Listed(PlayerLabels(s.players)))
    ensures r.players.Keys == s.players.Keys && forall p :: p in r.players ==> ViewOf(r, p) == ViewOf(s, p)
  {
    hide ViewOf, PlayerViews, PlayerLabels;
    forall p | p in r.players ensures p in s.players && ViewOf(r, p) == ViewOf(s, p) {
      ListedToo(r, s, p);
    }
    forall p | p in s.players ensures p in r.players {
      ListedToo(s, r, p);
    }
  }

  lemma SameCatalog(a: PhaseDurations, b: PhaseDurations)
    requires PresetCatalog(a) == PresetCatalog(b)
    ensures a == b
  {
    assert GameSettingsForPreset(NAMED_PRESETS[0], a) == Ok(PresetCatalog(a)[0]);
    assert GameSettingsForPreset(NAMED_PRESETS[0], b) == Ok(PresetCatalog(b)[0]);
  }

  lemma SnapshotShowsExactly(r: Room, s: Room)
    ensures SnapshotOf(r) == SnapshotOf(s) <==> ShowTheSame(r, s)
  {
    hide ViewOf, Kept, PresetCatalog, PlayerViews, SpectatorViews, SameStands, ShowTheSamePlayer;
    if SnapshotOf(r) == SnapshotOf(s) {
      SameCatalog(r.base, s.base);
      SamePlayersIfListed(r, s);
      SameStandsIfListed(r, s);
      forall p | p in r.players ensures ShowTheSamePlayer(r, s, p) {
        SameViewExactly(r, s, p);
      }
    }
    if ShowTheSame(r, s) {
      forall p | p in r.players ensures ViewOf(r, p) == ViewOf(s, p) {
        SameViewExactly(r, s, p);
      }
      SameListing(r, s);
      SameSpectatorListing(r, s);
    }
  }

  // The snapshot does not depend on them.
  lemma SnapshotKeepsSecrets(r: Room, s: Room)
    requires LooksAlike(r, s)
    ensures SnapshotOf(r) == SnapshotOf(s)
  {
    hide SnapshotOf, Kept;
    SnapshotShowsExactly(r, s);
  }

  // A participant's view depends on the phase, their own seat, and their own ballot, action and
  // investigations.
  lemma PrivateViewIsOnesOwn(r: Room, s: Room, p: Id)
    requires r.phase == s.phase
    requires p in r.players <==> p in s.players
    requires p in r.spectators <==> p in s.spectators
    requires p in r.players ==> r.players[p] == s.players[p]
    requires p in r.spectators ==> r.spectators[p] == s.spectators[p]
    requires p in r.nightActions <==> p in s.nightActions
    requires FindingsOf(r.investigations, p) == FindingsOf(s.investigations, p)
    requires (if p in r.votes then r.votes[p] else NO_ID) == if p in s.votes then s.votes[p] else NO_ID
    ensures PrivateViewOf(r, p) == PrivateViewOf(s, p)
  {
    hide FindingsOf;
  }
}
