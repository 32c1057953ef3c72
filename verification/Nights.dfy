// A night in words: who dies, who is told what, and that at most one player dies.

module Nights {
  import opened Rules
  import opened Settings
  import opened RoomModel
  import opened RoomInvariant
  import opened RoomSteps

  ghost predicate Visits(actions: Actions, actor: Id, kind: NightActionType, target: Id) {
    actor in actions && actions[actor].kind == kind && actions[actor].target == target
  }

  ghost predicate IsKeptHome(actions: Actions, p: Id) {
    exists e :: Visits(actions, e, Block, p)
  }

  ghost predicate IsGuarded(actions: Actions, p: Id) {
    exists d :: Visits(actions, d, Protect, p) && !IsKeptHome(actions, d)
  }

  ghost predicate IsAttacked(actions: Actions, p: Id) {
    exists k :: Visits(actions, k, Kill, p) && !IsKeptHome(actions, k)
  }

  lemma WordsForNight(actions: Actions, p: Id)
    ensures p in Blocked(actions) <==> IsKeptHome(actions, p)
    ensures p in Protected(actions) <==> IsGuarded(actions, p)
    ensures p in Victims(actions) <==> IsAttacked(actions, p) && !IsGuarded(actions, p)
  {
    forall x ensures x in Blocked(actions) <==> IsKeptHome(actions, x) {
      if x in Blocked(actions) {
        var e :| e in actions && actions[e].kind == Block && actions[e].target == x;
        assert Visits(actions, e, Block, x);
      }
    }
    hide Blocked, IsKeptHome;
    forall x ensures x in Protected(actions) <==> IsGuarded(actions, x) {
      if x in Protected(actions) {
        var d :| d in actions && actions[d].kind == Protect && d !in Blocked(actions) && actions[d].target == x;
        assert Visits(actions, d, Protect, x);
      }
    }
    hide Protected, IsGuarded;
    if p in Victims(actions) {
      var k :| k in actions && actions[k].kind == Kill && k !in Blocked(actions) && actions[k].target !in Protected(actions) && actions[k].target == p;
      assert Visits(actions, k, Kill, p);
    }
  }

  // What the night's end leaves of the seats and of what is known, finished game or not.
  lemma MorningSeats(r: Room, at: int)
    ensures NightResolved(r, at).players == Slain(r.players, Victims(r.nightActions))
    ensures NightResolved(r, at).investigations == Investigated(r.investigations, r.nightActions, r.players, r.round)
  {
    hide Victims, Investigated, PrunedVotes, EliminationLog, IsDecided, Slain, WinnerOf;
  }

  lemma FindingsAfter(known: Investigations, actions: Actions, players: Players, round: int, d: Id)
    requires CastOk(players) && ActionsOk(players, actions)
    ensures var told := d in Investigators(actions);
      FindingsOf(Investigated(known, actions, players, round), d) ==
        FindingsOf(known, d) + if told then Finding(players, actions[d].target, round) else []
    ensures d in Investigators(actions) ==> |Finding(players, actions[d].target, round)| == 1
  {
    InvestigatorFacts(players, actions);
    hide CastOk, ActionsOk, Investigators;
    assert FindingsOf(known, d) + [] == FindingsOf(known, d);
  }

  // When a night is resolved with these actions, a living player dies exactly if a killer nobody kept
  // at home came for them and no doctor nobody kept at home guarded them; at most one does; the dead
  // stay dead; and a detective learns exactly one thing exactly if nobody kept them at home, killed
  // that night or not.
  lemma NightInWords(r: Room, actions: Actions, at: int)
    requires Inv(r) && r.phase == Night && ActionsOk(r.players, actions)
    ensures var s := NightResolved(r.(nightActions := actions), at);
      && s.players.Keys == r.players.Keys
      && (forall p :: p in r.players ==>
          (s.players[p].alive <==> r.players[p].alive && !(IsAttacked(actions, p) && !IsGuarded(actions, p))))
      && (forall p, q :: p in r.players && q in r.players && r.players[p].alive && r.players[q].alive ==>
          s.players[p].alive || s.players[q].alive || p == q)
    ensures var s := NightResolved(r.(nightActions := actions), at);
      forall d :: d in actions && actions[d].kind == Investigate ==>
        FindingsOf(s.investigations, d) == FindingsOf(r.investigations, d) +
          if IsKeptHome(actions, d) then [] else Finding(r.players, actions[d].target, r.round)
  {
    hide Inv, GameCore, NightResolved, ActionsOk, CastOk, Investigated, FindingsOf, Finding;
    NightParts(r);
    CoreParts(r);
    var s := NightResolved(r.(nightActions := actions), at);
    MorningSeats(r.(nightActions := actions), at);
    VictimFacts(r.players, actions);
    forall p ensures p in Victims(actions) <==> IsAttacked(actions, p) && !IsGuarded(actions, p) {
      WordsForNight(actions, p);
    }
    forall d | d in actions && actions[d].kind == Investigate
      ensures FindingsOf(s.investigations, d) == FindingsOf(r.investigations, d) +
        if IsKeptHome(actions, d) then [] else Finding(r.players, actions[d].target, r.round)
    {
      WordsForNight(actions, d);
      FindingsAfter(r.investigations, actions, r.players, r.round, d);
    }
    hide Victims, IsAttacked, IsGuarded, IsKeptHome;
  }
}
