// A night carried out action by action does what the order-free account of it says: blocks before
// protections, protections before kills, whatever order they were submitted in.

module NightOrder {
  import opened Rules
  import opened RoomModel
  import opened RoomInvariant

  // What the actions done so far amount to.
  function BlockedBy(done: seq<NightAction>): set<Id> {
    set a | a in done && a.kind == Block :: a.target
  }

  function ProtectedBy(done: seq<NightAction>, actions: Actions): set<Id> {
    set a | a in done && a.kind == Protect && a.player !in Blocked(actions) :: a.target
  }

  function VictimsOf(done: seq<NightAction>, actions: Actions): set<Id> {
    set a | a in done && a.kind == Kill && a.player !in Blocked(actions) && a.target !in Protected(actions) :: a.target
  }

  function InvestigatorsIn(done: seq<NightAction>, actions: Actions): set<Id> {
    set a | a in done && a.kind == Investigate && a.player !in Blocked(actions) :: a.player
  }

  function FoundIn(known: Investigations, who: set<Id>, actions: Actions, players: Players, round: int): Investigations {
    map p | p in known.Keys + who ::
      FindingsOf(known, p) + (if p in who && p in actions then Finding(players, actions[p].target, round) else [])
  }

  function FoundBy(known: Investigations, done: seq<NightAction>, actions: Actions, players: Players, round: int): Investigations {
    FoundIn(known, InvestigatorsIn(done, actions), actions, players, round)
  }

  // What recording one investigation makes of those known.
  function WithFinding(known: Investigations, players: Players, action: NightAction, round: int): Investigations {
    if action.target in players then
      known[action.player := FindingsOf(known, action.player) + Finding(players, action.target, round)]
    else known
  }

  lemma ActionsAreFiled(players: Players, actions: Actions)
    requires ActionsOk(players, actions)
    ensures KeyedByPlayer(actions)
  {
    forall p | p in actions ensures actions[p].player == p && Filed(actions, actions[p]) {
      assert ActionOk(players, p, actions[p]);
    }
  }

  // ---- One action -----------------------------------------------------------------------------

  lemma InOrder(actions: Actions, ordered: seq<NightAction>, i: nat, b: NightAction)
    requires IsNightOrder(actions, ordered) && i < |ordered| && Filed(actions, b)
    requires Priority(b.kind) < Priority(ordered[i].kind)
    ensures b in ordered[..i]
  {
    assert b in ordered;
    var j :| 0 <= j < |ordered| && ordered[j] == b;
    if j < i {
      assert ordered[..i][j] == b;
    }
  }

  // When an action's turn comes, the blocks it must heed are done.
  lemma BlocksComeFirst(actions: Actions, ordered: seq<NightAction>, i: nat)
    requires IsNightOrder(actions, ordered) && KeyedByPlayer(actions) && i < |ordered|
    ensures ordered[i].kind != Block ==> BlockedBy(ordered[..i]) == Blocked(actions)
  {
    if ordered[i].kind != Block {
      forall x | x in Blocked(actions) ensures x in BlockedBy(ordered[..i]) {
        var p :| p in actions && actions[p].kind == Block && actions[p].target == x;
        InOrder(actions, ordered, i, actions[p]);
      }
      forall x | x in BlockedBy(ordered[..i]) ensures x in Blocked(actions) {
        var a :| a in ordered[..i] && a.kind == Block && a.target == x;
        assert a in ordered;
        assert Filed(actions, a);
      }
    }
  }

  lemma ProtectionsComeFirst(actions: Actions, ordered: seq<NightAction>, i: nat)
    requires IsNightOrder(actions, ordered) && KeyedByPlayer(actions) && i < |ordered|
    ensures ordered[i].kind == Kill ==> ProtectedBy(ordered[..i], actions) == Protected(actions)
  {
    hide Blocked;
    if ordered[i].kind == Kill {
      forall x | x in Protected(actions) ensures x in ProtectedBy(ordered[..i], actions) {
        var p :| p in actions && actions[p].kind == Protect && p !in Blocked(actions) && actions[p].target == x;
        InOrder(actions, ordered, i, actions[p]);
      }
      forall x | x in ProtectedBy(ordered[..i], actions) ensures x in Protected(actions) {
        var a :| a in ordered[..i] && a.kind == Protect && a.player !in Blocked(actions) && a.target == x;
        assert a in ordered;
        assert Filed(actions, a);
      }
    }
  }

  lemma OneEscort(players: Players, actions: Actions, a: NightAction, b: NightAction)
    requires CastOk(players) && ActionsOk(players, actions) && Filed(actions, a) && Filed(actions, b)
    requires a.kind == Block && b.kind == Block
    ensures a == b && a.target != a.player
  {
    assert ActionOk(players, a.player, a) && ActionOk(players, b.player, b);
  }

  // The escort is not blocked: there is one, and it may not visit itself.
  lemma EscortActs(players: Players, actions: Actions, ordered: seq<NightAction>, i: nat)
    requires IsNightOrder(actions, ordered) && i < |ordered|
    requires CastOk(players) && ActionsOk(players, actions) && ordered[i].kind == Block
    ensures ordered[i].player !in BlockedBy(ordered[..i])
  {
    var a := ordered[i];
    assert a in ordered;
    hide CastOk, ActionsOk;
    if a.player in BlockedBy(ordered[..i]) {
      var b :| b in ordered[..i] && b.kind == Block && b.target == a.player;
      assert b in ordered;
      OneEscort(players, actions, a, b);
      assert false;
    }
  }

  // No player acts twice.
  lemma ActsOnce(actions: Actions, ordered: seq<NightAction>, i: nat)
    requires IsNightOrder(actions, ordered) && i < |ordered|
    ensures forall b :: b in ordered[..i] ==> b.player != ordered[i].player
  {
    forall b | b in ordered[..i] ensures b.player != ordered[i].player {
      var j :| 0 <= j < i && ordered[j] == b;
      assert Before(ordered[j], ordered[i]);
      assert ordered[i] in ordered && ordered[j] in ordered;
      assert Filed(actions, ordered[i]) && Filed(actions, ordered[j]);
    }
  }

  lemma OneMoreAction(done: seq<NightAction>, a: NightAction, actions: Actions)
    ensures BlockedBy(done + [a]) == BlockedBy(done) + if a.kind == Block then {a.target} else {}
    ensures ProtectedBy(done + [a], actions) ==
      ProtectedBy(done, actions) + if a.kind == Protect && a.player !in Blocked(actions) then {a.target} else {}
    ensures VictimsOf(done + [a], actions) ==
      VictimsOf(done, actions)
      + if a.kind == Kill && a.player !in Blocked(actions) && a.target !in Protected(actions) then {a.target} else {}
    ensures InvestigatorsIn(done + [a], actions) ==
      InvestigatorsIn(done, actions) + if a.kind == Investigate && a.player !in Blocked(actions) then {a.player} else {}
  {
    hide Blocked, Protected;
    assert forall b :: b in done + [a] <==> b in done || b == a;
  }

  lemma OneMoreFinder(known: Investigations, who: set<Id>, p: Id, actions: Actions, players: Players, round: int)
    requires p !in who && p in actions
    ensures var f := FoundIn(known, who, actions, players, round);
      FoundIn(known, who + {p}, actions, players, round) == f[p := FindingsOf(f, p) + Finding(players, actions[p].target, round)]
  {
    hide Finding;
    var f := FoundIn(known, who, actions, players, round);
    assert FindingsOf(f, p) == FindingsOf(known, p) by {
      assert FindingsOf(known, p) + [] == FindingsOf(known, p);
    }
  }

  lemma OneMoreFinding(known: Investigations, done: seq<NightAction>, a: NightAction, actions: Actions, players: Players, round: int)
    requires Filed(actions, a) && a.target in players && forall b :: b in done ==> b.player != a.player
    requires a.kind == Investigate && a.player !in Blocked(actions)
    ensures FoundBy(known, done + [a], actions, players, round) ==
      WithFinding(FoundBy(known, done, actions, players, round), players, a, round)
  {
    OneMoreAction(done, a, actions);
    assert a.player !in InvestigatorsIn(done, actions);
    hide Blocked, InvestigatorsIn, FoundIn;
    OneMoreFinder(known, InvestigatorsIn(done, actions), a.player, actions, players, round);
  }

  lemma SameFindings(known: Investigations, done: seq<NightAction>, a: NightAction, actions: Actions, players: Players, round: int)
    requires a.kind != Investigate || a.player in Blocked(actions)
    ensures FoundBy(known, done + [a], actions, players, round) == FoundBy(known, done, actions, players, round)
  {
    OneMoreAction(done, a, actions);
    hide Blocked, InvestigatorsIn, Finding;
  }

  // Everything the loop needs to know when the turn of action i comes.
  lemma NightStep(players: Players, known: Investigations, actions: Actions, ordered: seq<NightAction>, i: nat, round: int)
    requires IsNightOrder(actions, ordered) && KeyedByPlayer(actions) && i < |ordered|
    requires CastOk(players) && ActionsOk(players, actions) && NO_ID !in players
    ensures var a, done := ordered[i], ordered[..i];
      && ordered[..i + 1] == done + [a]
      && (a.kind != Pass ==> a.target != NO_ID && IsLiving(players, a.target))
      && (a.kind != Block ==> BlockedBy(done) == Blocked(actions))
      && (a.kind == Block ==> a.player !in BlockedBy(done))
      && (a.kind == Kill ==> ProtectedBy(done, actions) == Protected(actions))
      && (if a.kind == Investigate && a.player !in Blocked(actions) then
            FoundBy(known, done + [a], actions, players, round) == WithFinding(FoundBy(known, done, actions, players, round), players, a, round)
          else FoundBy(known, done + [a], actions, players, round) == FoundBy(known, done, actions, players, round))
  {
    var a, done := ordered[i], ordered[..i];
    assert a in ordered;
    assert Filed(actions, a) && ActionOk(players, a.player, a);
    if a.kind == Block {
      EscortActs(players, actions, ordered, i);
    }
    hide CastOk, ActionsOk, HasNightAction;
    BlocksComeFirst(actions, ordered, i);
    ProtectionsComeFirst(actions, ordered, i);
    ActsOnce(actions, ordered, i);
    hide IsNightOrder, KeyedByPlayer, FoundBy, WithFinding, Blocked, Protected, BlockedBy, ProtectedBy;
    if a.kind == Investigate && a.player !in Blocked(actions) {
      OneMoreFinding(known, done, a, actions, players, round);
    } else {
      SameFindings(known, done, a, actions, players, round);
    }
  }

  lemma NothingDone(players: Players, known: Investigations, actions: Actions, round: int)
    ensures BlockedBy([]) == {} && ProtectedBy([], actions) == {} && VictimsOf([], actions) == {}
    ensures Slain(players, {}) == players
    ensures FoundBy(known, [], actions, players, round) == known
  {
    NobodySlain(players);
    assert InvestigatorsIn([], actions) == {};
    assert forall p :: p in known ==> known[p] + [] == known[p];
    hide Blocked, Protected, Finding, Slain, InvestigatorsIn;
  }

  // Killing some does not change what is found out about anyone.
  lemma TellsTheSame(players: Players, known: Investigations, victims: set<Id>, action: NightAction, round: int)
    ensures WithFinding(known, Slain(players, victims), action, round) == WithFinding(known, players, action, round)
    ensures IsLiving(Slain(players, victims), action.target) <==> IsLiving(players, action.target) && action.target !in victims
  {
  }

  lemma EverythingDone(players: Players, known: Investigations, actions: Actions, ordered: seq<NightAction>, round: int)
    requires IsNightOrder(actions, ordered) && KeyedByPlayer(actions)
    ensures VictimsOf(ordered, actions) == Victims(actions)
    ensures FoundBy(known, ordered, actions, players, round) == Investigated(known, actions, players, round)
  {
    hide Blocked, Protected;
    forall v | v in Victims(actions) ensures v in VictimsOf(ordered, actions) {
      var p :| p in actions && actions[p].kind == Kill && p !in Blocked(actions) && actions[p].target !in Protected(actions) && actions[p].target == v;
      assert Filed(actions, actions[p]);
    }
    forall v | v in VictimsOf(ordered, actions) ensures v in Victims(actions) {
      var a :| a in ordered && a.kind == Kill && a.player !in Blocked(actions) && a.target !in Protected(actions) && a.target == v;
      assert Filed(actions, a);
    }
    forall p | p in Investigators(actions) ensures p in InvestigatorsIn(ordered, actions) {
      assert Filed(actions, actions[p]);
    }
    assert InvestigatorsIn(ordered, actions) == Investigators(actions);
    hide Investigators, InvestigatorsIn, Victims, VictimsOf, IsNightOrder, KeyedByPlayer, Finding;
    SameFinds(known, actions, players, round);
  }

  lemma SameFinds(known: Investigations, actions: Actions, players: Players, round: int)
    ensures FoundIn(known, Investigators(actions), actions, players, round) == Investigated(known, actions, players, round)
  {
    assert forall p :: p in Investigators(actions) ==> p in actions;
    hide Finding, Investigators, FindingsOf;
    var f, g := FoundIn(known, Investigators(actions), actions, players, round), Investigated(known, actions, players, round);
    assert f.Keys == g.Keys;
    assert forall p :: p in f ==> f[p] == g[p];
  }

  lemma OneSlain(players: Players, v: Id)
    requires v in players
    ensures players[v := players[v].(alive := false)] == Slain(players, {v})
  {
  }

  lemma OneMoreSlain(players: Players, victims: set<Id>, v: Id)
    requires v in players
    ensures var slain := Slain(players, victims); slain[v := slain[v].(alive := false)] == Slain(players, victims + {v})
  {
  }
}
