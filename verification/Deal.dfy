// The draws decide the deal: every arrangement of the deck is dealt by some draws, and different draws deal
// different arrangements of different cards (internal/room/state.go).

module Deal {
  import opened Rules
  import opened Settings
  import opened RoomModel
  import opened RoomInvariant
  import opened RoomRuns

  // Draws as the random source yields them: for position k one of 0..k.
  predicate InRange(draws: seq<nat>, i: nat) {
    i < |draws| && forall k :: 0 <= k <= i ==> draws[k] <= k
  }

  // Positions above the one being swapped stay as they are.
  lemma {:induction false} TopStays<T>(s: seq<T>, draws: seq<nat>, i: nat, m: nat)
    requires i < |s| && i < |draws| && i < m < |s|
    ensures |Shuffled(s, draws, i)| == |s| && Shuffled(s, draws, i)[m] == s[m]
    decreases i
  {
    ShuffledIsPermutation(s, draws, i);
    if i > 0 {
      TopStays(Swap(s, i, draws[i] % (i + 1)), draws, i - 1, m);
    }
  }

  lemma {:induction false} OnlyThoseDraws<T>(s: seq<T>, draws: seq<nat>, more: seq<nat>, i: nat)
    requires i < |s| && i < |draws| && i < |more| && forall k :: 0 <= k <= i ==> draws[k] == more[k]
    ensures Shuffled(s, draws, i) == Shuffled(s, more, i)
    decreases i
  {
    if i > 0 {
      OnlyThoseDraws(Swap(s, i, draws[i] % (i + 1)), draws, more, i - 1);
    }
  }

  lemma PrefixesPermute<T>(s: seq<T>, t: seq<T>, n: nat)
    requires |s| == |t| && n <= |s| && multiset(s) == multiset(t) && s[n..] == t[n..]
    ensures multiset(s[..n]) == multiset(t[..n])
  {
    assert s == s[..n] + s[n..] && t == t[..n] + t[n..];
    assert multiset(s) == multiset(s[..n]) + multiset(s[n..]);
    assert multiset(t) == multiset(t[..n]) + multiset(t[n..]);
    forall x ensures multiset(s[..n])[x] == multiset(t[..n])[x] {
      assert multiset(s)[x] == multiset(s[..n])[x] + multiset(s[n..])[x];
      assert multiset(t)[x] == multiset(t[..n])[x] + multiset(t[n..])[x];
    }
  }

  lemma SwapPermutes<T>(s: seq<T>, i: nat, j: nat)
    requires i < |s| && j < |s|
    ensures |Swap(s, i, j)| == |s| && multiset(Swap(s, i, j)) == multiset(s)
  {
    assert multiset(s[i := s[j]]) == multiset(s) - multiset{s[i]} + multiset{s[j]};
  }

  lemma SwapIs<T>(s: seq<T>, i: nat, j: nat)
    requires i < |s| && j < |s|
    ensures |Swap(s, i, j)| == |s| && Swap(s, i, j)[i] == s[j]
    ensures forall k :: 0 <= k < |s| && k != i && k != j ==> Swap(s, i, j)[k] == s[k]
  {
  }

  lemma SmallRemainder(j: nat, n: nat)
    requires j < n
    ensures j % n == j
  {
  }

  // One swap, with a draw in range.
  lemma OneSwap<T>(s: seq<T>, draws: seq<nat>, i: nat)
    requires 0 < i < |s| && i < |draws| && draws[i] <= i
    ensures Shuffled(s, draws, i) == Shuffled(Swap(s, i, draws[i]), draws, i - 1)
  {
    SmallRemainder(draws[i], i + 1);
  }

  lemma FindCard<T>(s: seq<T>, t: seq<T>, i: nat) returns (j: nat)
    requires i < |s| == |t| && multiset(s[..i + 1]) == multiset(t[..i + 1])
    ensures j <= i && s[j] == t[i]
  {
    assert t[..i + 1][i] == t[i];
    assert t[i] in multiset(t[..i + 1]);
    assert t[i] in s[..i + 1];
    j :| 0 <= j < i + 1 && s[..i + 1][j] == t[i];
  }

  // Every permutation that leaves the positions above alone is reached by draws in range.
  lemma {:induction false} EveryPermutationIsDrawn<T>(s: seq<T>, t: seq<T>, i: nat) returns (draws: seq<nat>)
    requires i < |s| == |t| && multiset(s) == multiset(t) && s[i + 1..] == t[i + 1..]
    ensures |draws| == i + 1 && InRange(draws, i) && Shuffled(s, draws, i) == t
    decreases i
  {
    PrefixesPermute(s, t, i + 1);
    if i == 0 {
      draws := [0];
      LastCard(s, t);
    } else {
      hide Swap, Shuffled;
      var j := FindCard(s, t, i);
      var swapped := Swap(s, i, j);
      SwapPermutes(s, i, j);
      SwapIs(s, i, j);
      OneMoreInPlace(s, t, swapped, i, j);
      var rest := EveryPermutationIsDrawn(swapped, t, i - 1);
      draws := rest + [j];
      OnlyThoseDraws(swapped, rest, draws, i - 1);
      OneSwap(s, draws, i);
    }
  }

  lemma LastCard<T>(s: seq<T>, t: seq<T>)
    requires 0 < |s| == |t| && multiset(s[..1]) == multiset(t[..1]) && s[1..] == t[1..]
    ensures s == t
  {
    var j := FindCard(s, t, 0);
    assert s == [s[0]] + s[1..] && t == [t[0]] + t[1..];
  }

  lemma OneMoreInPlace<T>(s: seq<T>, t: seq<T>, swapped: seq<T>, i: nat, j: nat)
    requires j <= i < |s| == |t| == |swapped| && s[i + 1..] == t[i + 1..] && swapped[i] == s[j] == t[i]
    requires forall k :: 0 <= k < |s| && k != i && k != j ==> swapped[k] == s[k]
    ensures swapped[i..] == t[i..]
  {
    forall k | i < k < |s| ensures swapped[k] == t[k] {
      assert s[i + 1..][k - i - 1] == s[k] && t[i + 1..][k - i - 1] == t[k];
    }
  }

  lemma SwapKeepsDifferent<T>(s: seq<T>, i: nat, j: nat)
    requires i < |s| && j < |s| && Distinct(s)
    ensures Distinct(Swap(s, i, j))
  {
  }

  // The first swap decides the last card.
  lemma SameTopDraw<T>(s: seq<T>, a: seq<nat>, b: seq<nat>, i: nat)
    requires 0 < i < |s| && Distinct(s) && InRange(a, i) && InRange(b, i)
    requires Shuffled(s, a, i) == Shuffled(s, b, i)
    ensures a[i] == b[i]
  {
    hide Distinct, Swap, Shuffled;
    OneSwap(s, a, i);
    OneSwap(s, b, i);
    SwapIs(s, i, a[i]);
    SwapIs(s, i, b[i]);
    TopStays(Swap(s, i, a[i]), a, i - 1, i);
    TopStays(Swap(s, i, b[i]), b, i - 1, i);
    SameCard(s, a[i], b[i]);
  }

  // Different draws shuffle different cards differently; position 0 takes part in no swap of its own.
  lemma {:induction false} DifferentDrawsDiffer<T>(s: seq<T>, a: seq<nat>, b: seq<nat>, i: nat)
    requires i < |s| && Distinct(s) && InRange(a, i) && InRange(b, i)
    requires Shuffled(s, a, i) == Shuffled(s, b, i)
    ensures forall k :: 1 <= k <= i ==> a[k] == b[k]
    decreases i
  {
    hide Distinct, Swap, Shuffled;
    if i > 0 {
      SameTopDraw(s, a, b, i);
      OneSwap(s, a, i);
      OneSwap(s, b, i);
      SwapIs(s, i, a[i]);
      SwapKeepsDifferent(s, i, a[i]);
      DifferentDrawsDiffer(Swap(s, i, a[i]), a, b, i - 1);
    }
  }

  lemma SameCard<T>(s: seq<T>, i: nat, j: nat)
    requires Distinct(s) && i < |s| && j < |s| && s[i] == s[j]
    ensures i == j
  {
  }

  // ---- Who is dealt what --------------------------------------------------------------------------

  // The game starts from this room with these draws, and deals these roles in the order of the seats' ids.
  ghost predicate Deals(r: Room, p: Id, at: int, draws: seq<nat>, roles: seq<Role>) {
    var outcome := AfterStartGame(r, p, at, Entropy(NO_TOKEN, draws));
    outcome.Accepted? && RolesInOrder(outcome.room.players) == roles
  }

  lemma DrawsDeal(r: Room, p: Id, at: int, entropy: Entropy, draws: seq<nat>)
    requires Inv(r) && AfterStartGame(r, p, at, entropy).Accepted? && |draws| == |r.players|
    ensures |r.players| >= 2
    ensures Deals(r, p, at, draws, Shuffled(RoleDeck(|r.players|, r.settings.roles), draws, |r.players| - 1))
  {
    hide Inv, ValidateForStart, RoleDeck, Shuffled, Dealt, RolesInOrder;
    ShuffledIsPermutation(RoleDeck(|r.players|, r.settings.roles), draws, |r.players| - 1);
    DealtInOrder(r.players, Shuffled(RoleDeck(|r.players|, r.settings.roles), draws, |r.players| - 1));
  }

  // Where a game can start, every arrangement of its deck is dealt by some draws.
  lemma EveryDealIsPossible(r: Room, p: Id, at: int, entropy: Entropy, roles: seq<Role>)
    requires Inv(r) && AfterStartGame(r, p, at, entropy).Accepted?
    requires multiset(roles) == multiset(RoleDeck(|r.players|, r.settings.roles))
    ensures exists draws :: |draws| == |r.players| && InRange(draws, |r.players| - 1) && Deals(r, p, at, draws, roles)
  {
    hide Inv, RoleDeck, Shuffled, AfterStartGame, Deals;
    var deck := RoleDeck(|r.players|, r.settings.roles);
    SameCards(deck, roles);
    DrawsDeal(r, p, at, entropy, seq(|r.players|, i => 0));
    assert deck[|deck|..] == roles[|deck|..];
    var draws := EveryPermutationIsDrawn(deck, roles, |r.players| - 1);
    DrawsDeal(r, p, at, entropy, draws);
  }

  lemma SameCards<T>(s: seq<T>, t: seq<T>)
    requires multiset(s) == multiset(t)
    ensures |s| == |t|
  {
    assert |s| == |multiset(s)| && |t| == |multiset(t)|;
  }

  // So every seat may be dealt the killer.
  lemma AnybodyMayBeTheKiller(r: Room, p: Id, at: int, entropy: Entropy, q: Id)
    requires Inv(r) && AfterStartGame(r, p, at, entropy).Accepted? && q in r.players
    ensures exists draws :: |draws| == |r.players| && InRange(draws, |r.players| - 1) && MakesKiller(r, p, at, draws, q)
  {
    hide Inv, RoleDeck, Shuffled, AfterStartGame, Sorted;
    var deck, ids := RoleDeck(|r.players|, r.settings.roles), Sorted(r.players.Keys);
    DrawsDeal(r, p, at, entropy, seq(|r.players|, i => 0));
    KillerIsFirst(r);
    assert q in ids;
    var k :| 0 <= k < |ids| && ids[k] == q;
    assert |ids| == |r.players.Keys| == |r.players|;
    var roles := Swap(deck, k, 0);
    SwapPermutes(deck, k, 0);
    EveryDealIsPossible(r, p, at, entropy, roles);
    var draws :| |draws| == |r.players| && InRange(draws, |r.players| - 1) && Deals(r, p, at, draws, roles);
    SeatHasRole(r, p, at, draws, roles, k);
  }

  ghost predicate MakesKiller(r: Room, p: Id, at: int, draws: seq<nat>, q: Id) {
    var outcome := AfterStartGame(r, p, at, Entropy(NO_TOKEN, draws));
    outcome.Accepted? && q in outcome.room.players && outcome.room.players[q].role == Killer
  }

  lemma KillerIsFirst(r: Room)
    requires Inv(r) && |r.players| >= 2
    ensures RoleDeck(|r.players|, r.settings.roles)[0] == Killer
  {
    SettingsFacts(r);
    ConfiguredInOrder(r.settings.roles);
    hide Inv, Configured;
  }

  lemma SeatHasRole(r: Room, p: Id, at: int, draws: seq<nat>, roles: seq<Role>, k: nat)
    requires Deals(r, p, at, draws, roles) && k < |roles| == |r.players| && k < |Sorted(r.players.Keys)|
    ensures var q := Sorted(r.players.Keys)[k]; var s := AfterStartGame(r, p, at, Entropy(NO_TOKEN, draws)).room;
      q in s.players && s.players[q].role == roles[k]
  {
    hide AfterStartGame, Sorted;
    SeatsKept(r, p, at, draws);
    assert Sorted(r.players.Keys)[k] in Sorted(r.players.Keys);
  }

  lemma SeatsKept(r: Room, p: Id, at: int, draws: seq<nat>)
    requires AfterStartGame(r, p, at, Entropy(NO_TOKEN, draws)).Accepted?
    ensures AfterStartGame(r, p, at, Entropy(NO_TOKEN, draws)).room.players.Keys == r.players.Keys
  {
    hide ValidateForStart, ShuffledDeck, Sorted;
    DealtRoles(r.players, ShuffledDeck(|r.players|, r.settings.roles, draws));
    hide Dealt;
  }

  // ---- What the deck holds ------------------------------------------------------------------------

  // A configured role follows those configured before it.
  lemma {:induction false} ConfiguredPlace(order: seq<Role>, k: nat, configuration: RoleConfiguration)
    requires k < |order|
    ensures var all, before := Configured(order, configuration), Configured(order[..k], configuration);
      && before <= all
      && (ConfiguredRoleCount(configuration, order[k]) > 0 ==> |before| < |all| && all[|before|] == order[k])
  {
    var n := |order| - 1;
    if k < n {
      assert order[..n][..k] == order[..k];
      ConfiguredPlace(order[..n], k, configuration);
    }
  }

  lemma {:induction false} OnlyConfigured(order: seq<Role>, configuration: RoleConfiguration)
    ensures forall role :: role in Configured(order, configuration) ==> ConfiguredRoleCount(configuration, role) > 0
  {
    if order != [] {
      OnlyConfigured(order[..|order| - 1], configuration);
    }
  }

  lemma OneMoreConfigured(order: seq<Role>, last: Role, configuration: RoleConfiguration)
    ensures |Configured(order + [last], configuration)|
      == |Configured(order, configuration)| + if ConfiguredRoleCount(configuration, last) > 0 then 1 else 0
  {
    assert (order + [last])[..|order|] == order;
  }

  // How many configured roles come before this one, in the order killer, detective, doctor, escort, shooter.
  function RolesBefore(configuration: RoleConfiguration, role: Role): int {
    match role
    case Detective => 1
    case Doctor => 1 + configuration.detectives
    case Escort => 1 + configuration.detectives + configuration.doctors
    case Shooter => 1 + configuration.detectives + configuration.doctors + configuration.escorts
    case _ => 0
  }

  lemma NobodyConfigured(configuration: RoleConfiguration)
    ensures Configured([], configuration) == []
  {
  }

  lemma RolesBeforeAre(configuration: RoleConfiguration)
    requires LegalRoleConfiguration(configuration)
    ensures forall k :: 0 <= k < 5 ==> |Configured(DECK_ORDER[..k], configuration)| == RolesBefore(configuration, DECK_ORDER[k])
  {
    hide Configured;
    NobodyConfigured(configuration);
    OneMoreConfigured([], Killer, configuration);
    OneMoreConfigured([Killer], Detective, configuration);
    OneMoreConfigured([Killer, Detective], Doctor, configuration);
    OneMoreConfigured([Killer, Detective, Doctor], Escort, configuration);
    assert DECK_ORDER[..0] == [] && DECK_ORDER[..1] == [] + [Killer] && DECK_ORDER[..2] == [Killer] + [Detective];
    assert DECK_ORDER[..3] == [Killer, Detective] + [Doctor] && DECK_ORDER[..4] == [Killer, Detective, Doctor] + [Escort];
    assert [] + [Killer] == [Killer] && [Killer] + [Detective] == [Killer, Detective] && [Killer, Detective] + [Doctor] == [Killer, Detective, Doctor];
  }

  lemma PlaceOf(configuration: RoleConfiguration, role: Role)
    requires LegalRoleConfiguration(configuration) && role in DECK_ORDER
    ensures var all, k := Configured(DECK_ORDER, configuration), RolesBefore(configuration, role);
      if ConfiguredRoleCount(configuration, role) == 1 then 0 <= k < |all| && all[k] == role else role !in all
  {
    hide Configured, RolesBefore;
    var i :| 0 <= i < |DECK_ORDER| && DECK_ORDER[i] == role;
    ConfiguredPlace(DECK_ORDER, i, configuration);
    OnlyConfigured(DECK_ORDER, configuration);
    RolesBeforeAre(configuration);
  }

  // The deck holds exactly the configured roles, one of each, as long as a seat is left for them and a villager
  // after; and villagers for the rest.
  lemma DeckHolds(count: nat, configuration: RoleConfiguration, role: Role)
    requires count >= 2 && LegalRoleConfiguration(configuration) && role in DECK_ORDER
    ensures role in RoleDeck(count, configuration) <==>
      ConfiguredRoleCount(configuration, role) == 1 && RolesBefore(configuration, role) < count - 1
  {
    PlaceOf(configuration, role);
    ConfiguredInOrder(configuration);
    hide Configured, RolesBefore, ConfiguredRoleCount, LegalRoleConfiguration;
    var all := Configured(DECK_ORDER, configuration);
    var specials, deck := FirstOf(all, count - 1), RoleDeck(count, configuration);
    var rest := seq(count - |specials|, _ => Villager);
    assert deck == specials + rest;
    assert role !in rest;
    hide RoleDeck;
    var k := RolesBefore(configuration, role);
    if role in specials {
      var i :| 0 <= i < |specials| && specials[i] == role;
      assert all[i] == role;
    }
    assert role in all && k < count - 1 ==> specials[k] == role;
  }
}
