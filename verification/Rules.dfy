// The role registry, the role deck and the order in which night actions are carried out
// (internal/room/rules.go), for the default rule set.

module Rules {
  import opened Order

  datatype Option<+T> = None | Some(value: T)

  // A participant id. Ids are strings of at most 64 characters in the program; only equality and
  // the order of strings are ever used, so a natural number stands for each one, 0 for "".
  datatype Id = Id(key: int)

  const NO_ID: Id := Id(0)

  datatype Role = NoRole | Villager | Killer | Detective | Doctor | Escort | Shooter

  datatype Faction = Council | Killers

  datatype NightActionType = Kill | Investigate | Protect | Block | Pass

  datatype NightActionRule = NightActionRule(kind: NightActionType, priority: int, allowSelfTarget: bool)

  datatype RoleRule = RoleRule(faction: Faction, nightAction: Option<NightActionRule>, canShoot: bool)

  datatype RoleConfiguration = RoleConfiguration(killers: int, detectives: int, doctors: int, escorts: int, shooters: int)

  datatype NightAction = NightAction(player: Id, target: Id, kind: NightActionType)

  const DECK_ORDER: seq<Role> := [Killer, Detective, Doctor, Escort, Shooter]

  // ---- Registry -------------------------------------------------------------------------------

  function RuleOf(role: Role): Option<RoleRule> {
    match role
    case NoRole => None
    case Villager => Some(RoleRule(Council, None, false))
    case Killer => Some(RoleRule(Killers, Some(NightActionRule(Kill, 30, false)), false))
    case Detective => Some(RoleRule(Council, Some(NightActionRule(Investigate, 40, false)), false))
    case Doctor => Some(RoleRule(Council, Some(NightActionRule(Protect, 20, true)), false))
    case Escort => Some(RoleRule(Council, Some(NightActionRule(Block, 10, false)), false))
    case Shooter => Some(RoleRule(Council, None, true))
  }

  function NightActionForRole(role: Role): Option<NightActionRule> {
    match RuleOf(role)
    case None => None
    case Some(rule) => rule.nightAction
  }

  predicate CanShoot(role: Role) {
    RuleOf(role).Some? && RuleOf(role).value.canShoot
  }

  predicate IsKillerAligned(role: Role) {
    RuleOf(role).Some? && RuleOf(role).value.faction == Killers
  }

  function ConfiguredRoleCount(configuration: RoleConfiguration, role: Role): int {
    match role
    case Killer => configuration.killers
    case Detective => configuration.detectives
    case Doctor => configuration.doctors
    case Escort => configuration.escorts
    case Shooter => configuration.shooters
    case _ => 0
  }

  predicate LegalRoleConfiguration(configuration: RoleConfiguration) {
    && configuration.killers == 1
    && 0 <= configuration.detectives <= 1
    && 0 <= configuration.doctors <= 1
    && 0 <= configuration.escorts <= 1
    && 0 <= configuration.shooters <= 1
  }

  // ---- Role deck ------------------------------------------------------------------------------

  function Configured(order: seq<Role>, configuration: RoleConfiguration): seq<Role> {
    if order == [] then []
    else
      var rest := Configured(order[..|order| - 1], configuration);
      var last := order[|order| - 1];
      if ConfiguredRoleCount(configuration, last) > 0 then rest + [last] else rest
  }

  function FirstOf<T>(s: seq<T>, n: nat): seq<T> {
    if |s| <= n then s else s[..n]
  }

  // The configured special roles in deck order, as many as leave a seat for a villager, then villagers.
  function RoleDeck(count: nat, configuration: RoleConfiguration): (deck: seq<Role>)
    ensures |deck| == count
  {
    var specials := FirstOf(Configured(DECK_ORDER, configuration), if count == 0 then 0 else count - 1);
    specials + seq(if |specials| < count then count - |specials| else 0, _ => Villager)
  }

  method BuildRoleDeck(count: nat, configuration: RoleConfiguration) returns (deck: seq<Role>)
    ensures deck == RoleDeck(count, configuration)
    ensures |deck| == count
  {
    deck := [];
    for i := 0 to |DECK_ORDER|
      invariant deck == FirstOf(Configured(DECK_ORDER[..i], configuration), if count == 0 then 0 else count - 1)
    {
      assert DECK_ORDER[..i + 1][..|DECK_ORDER[..i + 1]| - 1] == DECK_ORDER[..i];
      if ConfiguredRoleCount(configuration, DECK_ORDER[i]) > 0 && |deck| < count - 1 {
        deck := deck + [DECK_ORDER[i]];
      }
    }
    assert DECK_ORDER[..|DECK_ORDER|] == DECK_ORDER;
    ghost var specials := deck;
    while |deck| < count
      invariant |specials| <= |deck| <= count
      invariant deck == specials + seq(|deck| - |specials|, _ => Villager)
    {
      deck := deck + [Villager];
    }
  }

  // Every deal of a legal configuration to at least two seats holds exactly one killer, at least
  // one villager, and every special role at most once.
  lemma DeckIsFair(count: nat, configuration: RoleConfiguration)
    requires count >= 2 && LegalRoleConfiguration(configuration)
    ensures |RoleDeck(count, configuration)| == count
    ensures multiset(RoleDeck(count, configuration))[Killer] == 1
    ensures multiset(RoleDeck(count, configuration))[Villager] >= 1
    ensures multiset(RoleDeck(count, configuration))[NoRole] == 0
    ensures forall role :: role != Villager ==> multiset(RoleDeck(count, configuration))[role] <= 1
  {
    var specials := FirstOf(Configured(DECK_ORDER, configuration), count - 1);
    var rest := seq(count - |specials|, _ => Villager);
    ConfiguredInOrder(configuration);
    assert RoleDeck(count, configuration) == specials + rest;
    assert rest[0] == Villager;
    assert Villager in multiset(rest);
    forall role | role != Villager ensures multiset(rest)[role] == 0 {
      assert role !in rest;
    }
    DistinctMeansOnce(specials);
    assert specials[0] == Killer;
    assert Killer in multiset(specials);
    assert NoRole !in specials;
  }

  predicate Distinct<T(==)>(s: seq<T>) {
    forall i, j :: 0 <= i < j < |s| ==> s[i] != s[j]
  }

  lemma {:induction false} DistinctMeansOnce<T>(s: seq<T>)
    requires Distinct(s)
    ensures forall x :: multiset(s)[x] <= 1
  {
    if s == [] {
    } else {
      var init := s[..|s| - 1];
      DistinctMeansOnce(init);
      assert s == init + [s[|s| - 1]];
      forall x ensures multiset(s)[x] <= 1 {
        if x == s[|s| - 1] {
          assert x !in init;
        }
      }
    }
  }

  // Deck order is short enough to follow role by role.
  lemma ConfiguredStep(order: seq<Role>, last: Role, configuration: RoleConfiguration)
    requires last !in order && IsConfigured(order, configuration)
    ensures IsConfigured(order + [last], configuration)
  {
    assert (order + [last])[..|order|] == order;
  }

  ghost predicate IsConfigured(order: seq<Role>, configuration: RoleConfiguration) {
    var c := Configured(order, configuration);
    && Distinct(c)
    && (forall role :: role in c ==> role in order)
    && (order != [] && ConfiguredRoleCount(configuration, order[0]) > 0 ==> |c| >= 1 && c[0] == order[0])
  }

  lemma ConfiguredInOrder(configuration: RoleConfiguration)
    requires LegalRoleConfiguration(configuration)
    ensures var c := Configured(DECK_ORDER, configuration);
      |c| >= 1 && c[0] == Killer && Distinct(c) && Villager !in c && NoRole !in c
  {
    hide Configured, IsConfigured;
    FirstConfigured(configuration);
    ConfiguredStep([Killer], Detective, configuration);
    assert [Killer] + [Detective] == [Killer, Detective];
    ConfiguredStep([Killer, Detective], Doctor, configuration);
    assert [Killer, Detective] + [Doctor] == [Killer, Detective, Doctor];
    ConfiguredStep([Killer, Detective, Doctor], Escort, configuration);
    assert [Killer, Detective, Doctor] + [Escort] == [Killer, Detective, Doctor, Escort];
    ConfiguredStep([Killer, Detective, Doctor, Escort], Shooter, configuration);
    assert [Killer, Detective, Doctor, Escort] + [Shooter] == DECK_ORDER;
    ConfiguredParts(DECK_ORDER, configuration);
  }

  lemma FirstConfigured(configuration: RoleConfiguration)
    requires LegalRoleConfiguration(configuration)
    ensures IsConfigured([Killer], configuration)
  {
    assert Configured([], configuration) == [];
    assert [Killer][..0] == [];
  }

  lemma ConfiguredParts(order: seq<Role>, configuration: RoleConfiguration)
    requires IsConfigured(order, configuration) && order != [] && ConfiguredRoleCount(configuration, order[0]) > 0
    ensures var c := Configured(order, configuration);
      |c| >= 1 && c[0] == order[0] && Distinct(c) && forall role :: role in c ==> role in order
  {
  }

  // ---- Shuffling ------------------------------------------------------------------------------

  function Swap<T>(s: seq<T>, i: nat, j: nat): seq<T>
    requires i < |s| && j < |s|
  {
    s[i := s[j]][j := s[i]]
  }

  // The deck after the swaps at positions i, i-1, ..., 1, each with the drawn position at or below
  // it; draws[k] is the draw for position k, reduced into range.
  function Shuffled<T>(s: seq<T>, draws: seq<nat>, i: nat): seq<T>
    requires i < |s| && i < |draws|
    decreases i
  {
    if i == 0 then s else Shuffled(Swap(s, i, draws[i] % (i + 1)), draws, i - 1)
  }

  lemma {:induction false} ShuffledIsPermutation<T>(s: seq<T>, draws: seq<nat>, i: nat)
    requires i < |s| && i < |draws|
    ensures |Shuffled(s, draws, i)| == |s|
    ensures multiset(Shuffled(s, draws, i)) == multiset(s)
    decreases i
  {
    if i == 0 {
    } else {
      ShuffledIsPermutation(Swap(s, i, draws[i] % (i + 1)), draws, i - 1);
    }
  }

  // The deck for so many seats, shuffled.
  function ShuffledDeck(count: nat, configuration: RoleConfiguration, draws: seq<nat>): (roles: seq<Role>)
    requires 1 <= count <= |draws|
    ensures |roles| == count
    ensures multiset(roles) == multiset(RoleDeck(count, configuration))
  {
    var deck := RoleDeck(count, configuration);
    ShuffledIsPermutation(deck, draws, count - 1);
    Shuffled(deck, draws, count - 1)
  }

  method ShuffleRoles(roles: array<Role>, draws: seq<nat>)
    requires 1 <= roles.Length <= |draws|
    modifies roles
    ensures roles[..] == Shuffled(old(roles[..]), draws, roles.Length - 1)
  {
    var i := roles.Length - 1;
    while i > 0
      invariant 0 <= i < roles.Length
      invariant Shuffled(roles[..], draws, i) == Shuffled(old(roles[..]), draws, roles.Length - 1)
    {
      var j := draws[i] % (i + 1);
      ghost var was := roles[..];
      roles[i], roles[j] := roles[j], roles[i];
      assert roles[..] == Swap(was, i, j);
      i := i - 1;
    }
  }

  // ---- Order of night actions -----------------------------------------------------------------

  function Priority(kind: NightActionType): int {
    match kind
    case Block => 10
    case Protect => 20
    case Kill => 30
    case Investigate => 40
    case Pass => 0x7fff_ffff_ffff_ffff
  }

  predicate Before(a: NightAction, b: NightAction) {
    if Priority(a.kind) != Priority(b.kind) then Priority(a.kind) < Priority(b.kind) else Less(a.player, b.player)
  }

  // The actions of a night, each filed under its own player.
  ghost predicate Filed(actions: map<Id, NightAction>, a: NightAction) {
    a.player in actions && actions[a.player] == a
  }

  ghost predicate KeyedByPlayer(actions: map<Id, NightAction>) {
    forall p :: p in actions ==> Filed(actions, actions[p]) && actions[p].player == p
  }

  // s lists every action of the map once, in the order of Before.
  ghost predicate IsNightOrder(actions: map<Id, NightAction>, s: seq<NightAction>) {
    && (forall i, j :: 0 <= i < j < |s| ==> Before(s[i], s[j]))
    && (forall a :: a in s <==> Filed(actions, a))
  }

  // Before is not total on arbitrary actions, but it is on those of one night. Completed by the
  // target it is total, and agrees with Before on one night's actions.
  predicate BeforeOrTarget(a: NightAction, b: NightAction) {
    if Priority(a.kind) == Priority(b.kind) && a.player == b.player then Less(a.target, b.target) else Before(a, b)
  }

  lemma BeforeOrTargetIsStrictTotal()
    ensures StrictTotal(BeforeOrTarget)
  {
    forall a: NightAction, b: NightAction | a != b ensures BeforeOrTarget(a, b) || BeforeOrTarget(b, a) {
      assert Priority(a.kind) == Priority(b.kind) ==> a.kind == b.kind;
    }
  }

  // However the map is iterated and whatever sorts it, only one sequence is in night order.
  lemma NightOrderIsUnique(actions: map<Id, NightAction>, s: seq<NightAction>, t: seq<NightAction>)
    requires IsNightOrder(actions, s) && IsNightOrder(actions, t)
    ensures s == t
  {
    BeforeOrTargetIsStrictTotal();
    assert forall i, j :: 0 <= i < j < |s| ==> BeforeOrTarget(s[i], s[j]);
    assert forall i, j :: 0 <= i < j < |t| ==> BeforeOrTarget(t[i], t[j]);
    OrderIsUnique(BeforeOrTarget, s, t);
  }

  // The values of the map, taken in whatever order the iteration yields and put in order.
  method OrderNightActions(actions: map<Id, NightAction>) returns (ordered: seq<NightAction>)
    requires KeyedByPlayer(actions)
    ensures IsNightOrder(actions, ordered)
  {
    BeforeOrTargetIsStrictTotal();
    ordered := [];
    var todo := actions.Keys;
    while todo != {}
      invariant todo <= actions.Keys
      invariant Ordered(BeforeOrTarget, ordered)
      invariant forall a :: a in ordered <==> Filed(actions, a) && a.player !in todo
    {
      var p :| p in todo;
      assert Filed(actions, actions[p]);
      ordered := InsertInOrder(BeforeOrTarget, ordered, actions[p]);
      todo := todo - {p};
    }
    forall i, j | 0 <= i < j < |ordered| ensures Before(ordered[i], ordered[j]) {
      assert ordered[i] in ordered && ordered[j] in ordered;
      assert BeforeOrTarget(ordered[i], ordered[j]);
      assert Filed(actions, ordered[i]) && Filed(actions, ordered[j]);
      assert ordered[i] != ordered[j];
    }
  }

  // ---- Sorted ids -----------------------------------------------------------------------------

  predicate Less(a: Id, b: Id) {
    a.key < b.key
  }

  ghost predicate Lists(s: seq<Id>, ids: set<Id>) {
    && Ordered(Less, s)
    && (forall p :: p in s <==> p in ids)
  }

  ghost predicate IsLeast(ids: set<Id>, m: Id) {
    m in ids && forall p :: p in ids ==> !Less(p, m)
  }

  lemma {:induction false} LeastExists(ids: set<Id>)
    requires ids != {}
    ensures exists m :: IsLeast(ids, m)
  {
    var p :| p in ids;
    var rest := ids - {p};
    if rest == {} {
      assert ids == {p};
      assert IsLeast(ids, p);
    } else {
      LeastExists(rest);
      var m :| IsLeast(rest, m);
      assert IsLeast(ids, if Less(p, m) then p else m) by {
        assert forall q :: q in ids ==> q == p || q in rest;
      }
    }
  }

  ghost function Least(ids: set<Id>): (m: Id)
    requires ids != {}
    ensures IsLeast(ids, m)
  {
    LeastExists(ids);
    var m :| IsLeast(ids, m);
    m
  }

  // The first wanted id of an ascending list is the least.
  lemma FirstIsLeast(ids: seq<Id>, wanted: set<Id>, i: nat)
    requires Ordered(Less, ids) && i < |ids| && ids[i] in wanted
    requires forall p :: p in wanted ==> p in ids
    requires forall j :: 0 <= j < i ==> ids[j] !in wanted
    ensures wanted != {} && Least(wanted) == ids[i]
  {
    var j :| 0 <= j < |ids| && ids[j] == Least(wanted);
    assert j > i ==> Less(ids[i], ids[j]);
  }

  // The ids in ascending order.
  ghost function Sorted(ids: set<Id>): (s: seq<Id>)
    ensures Lists(s, ids)
    ensures |s| == |ids|
  {
    if ids == {} then []
    else
      var m := Least(ids);
      var rest := Sorted(ids - {m});
      assert forall i :: 0 <= i < |rest| ==> rest[i] in ids - {m};
      [m] + rest
  }

  method SortedKeys(ids: set<Id>) returns (s: seq<Id>)
    ensures s == Sorted(ids)
  {
    s := [];
    var todo := ids;
    while todo != {}
      invariant todo <= ids
      invariant Lists(s, ids - todo)
    {
      var p :| p in todo;
      s := InsertInOrder(Less, s, p);
      todo := todo - {p};
    }
    assert ids - todo == ids;
    OrderIsUnique(Less, s, Sorted(ids));
  }
}
