// The room as the program keeps it (internal/room/state.go): fields, maps and the capped log updated
// in place, map iteration in an arbitrary order, scratch tables and counters. Every method is proved
// to do what RoomModel says one event does.

module RoomState {
  import opened Order
  import opened Rules
  import opened Settings
  import opened RoomModel
  import opened RoomInvariant
  import opened RoomSteps
  import opened RoomRuns
  import opened NightOrder
  import opened Ballots
  import opened Views
  import opened Listing
  import Seats

  lemma OneTakenOut(s: set<Id>, todo: set<Id>, p: Id)
    requires p in todo
    ensures |s - (todo - {p})| == |s - todo| + if p in s then 1 else 0
  {
    if p in s {
      assert s - (todo - {p}) == s - todo + {p};
    } else {
      assert s - (todo - {p}) == s - todo;
    }
  }

  // ---- Counting a vote ------------------------------------------------------------------------

  // One entry for everyone named on a ballot, holding the number of ballots that name them.
  ghost predicate IsTally(votes: Votes, tallies: map<Id, nat>) {
    forall t :: (t in tallies <==> t != NO_ID && Tally(votes, t) > 0) && (t in tallies ==> tallies[t] == Tally(votes, t))
  }

  // t has more than everyone else.
  predicate Leads(tallies: map<Id, nat>, t: Id) {
    t in tallies && tallies[t] > 0 && forall u :: u in tallies && u != t ==> tallies[u] < tallies[t]
  }

  ghost function CountedFor(votes: Votes, todo: set<Id>, t: Id): nat {
    |set v | v in votes && v !in todo && votes[v] == t|
  }

  lemma OneMoreBallot(votes: Votes, todo: set<Id>, v: Id, t: Id)
    requires v in todo && v in votes
    ensures CountedFor(votes, todo - {v}, t) == CountedFor(votes, todo, t) + if votes[v] == t then 1 else 0
  {
    var counted := set w | w in votes && w !in todo && votes[w] == t;
    if votes[v] == t {
      assert (set w | w in votes && w !in todo - {v} && votes[w] == t) == counted + {v};
    } else {
      assert (set w | w in votes && w !in todo - {v} && votes[w] == t) == counted;
    }
  }

  lemma AllCounted(votes: Votes)
    ensures forall t :: CountedFor(votes, {}, t) == Tally(votes, t)
  {
    forall t ensures CountedFor(votes, {}, t) == Tally(votes, t) {
      var none: set<Id> := {};
      assert (set v | v in votes && v !in none && votes[v] == t) == set v | v in votes && votes[v] == t;
      assert CountedFor(votes, none, t) == |set v | v in votes && v !in none && votes[v] == t|;
    }
  }

  method CountBallots(votes: Votes) returns (tallies: map<Id, nat>)
    ensures IsTally(votes, tallies)
  {
    tallies := map[];
    var todo := votes.Keys;
    assert forall t :: CountedFor(votes, todo, t) == 0;
    while todo != {}
      invariant todo <= votes.Keys
      invariant forall t :: t in tallies <==> t != NO_ID && CountedFor(votes, todo, t) > 0
      invariant forall t :: t in tallies ==> tallies[t] == CountedFor(votes, todo, t)
    {
      var v :| v in todo;
      forall t ensures CountedFor(votes, todo - {v}, t) == CountedFor(votes, todo, t) + if votes[v] == t then 1 else 0 {
        OneMoreBallot(votes, todo, v, t);
      }
      hide CountedFor;
      if votes[v] != NO_ID {
        tallies := tallies[votes[v] := (if votes[v] in tallies then tallies[votes[v]] else 0) + 1];
      }
      todo := todo - {v};
    }
    AllCounted(votes);
  }

  // top is the first seen with the highest count, tied whether another has as many.
  ghost predicate IsTop(tallies: map<Id, nat>, seen: set<Id>, top: Id, topCount: nat, tied: bool)
    requires seen <= tallies.Keys
  {
    && (forall t :: t in seen ==> tallies[t] <= topCount)
    && (if topCount == 0 then top == NO_ID
        else top in seen && tallies[top] == topCount && (tied <==> exists t :: t in seen && t != top && tallies[t] == topCount))
  }

  lemma OneMoreSeen(tallies: map<Id, nat>, seen: set<Id>, top: Id, topCount: nat, tied: bool, id: Id)
    requires seen <= tallies.Keys && IsTop(tallies, seen, top, topCount, tied) && id in tallies && id !in seen
    ensures tallies[id] > topCount ==> IsTop(tallies, seen + {id}, id, tallies[id], false)
    ensures tallies[id] == topCount ==> IsTop(tallies, seen + {id}, top, topCount, true)
    ensures tallies[id] < topCount ==> IsTop(tallies, seen + {id}, top, topCount, tied)
  {
    if tallies[id] < topCount && tied {
      var t :| t in seen && t != top && tallies[t] == topCount;
      assert t in seen + {id};
    }
  }

  lemma TopLeads(tallies: map<Id, nat>, top: Id, topCount: nat, tied: bool)
    requires IsTop(tallies, tallies.Keys, top, topCount, tied)
    ensures forall t :: t != NO_ID ==> (top == t && !tied <==> Leads(tallies, t))
  {
  }

  // The first of the highest in id order, and whether another has as many.
  method TopVoteTarget(tallies: map<Id, nat>) returns (top: Id, tied: bool)
    ensures forall t :: t != NO_ID ==> (top == t && !tied <==> Leads(tallies, t))
  {
    hide Sorted, IsTop, Leads;
    top, tied := NO_ID, false;
    var topCount: nat := 0;
    var ids := SortedKeys(tallies.Keys);
    ghost var seen: set<Id> := {};
    NothingSeen(tallies);
    DifferentIds(ids);
    for i := 0 to |ids|
      invariant seen <= tallies.Keys && IsTop(tallies, seen, top, topCount, tied)
      invariant forall j :: 0 <= j < i ==> ids[j] in seen
      invariant forall j :: i <= j < |ids| ==> ids[j] !in seen
    {
      assert ids[i] in ids;
      OneMoreSeen(tallies, seen, top, topCount, tied, ids[i]);
      var count := tallies[ids[i]];
      if count > topCount {
        top, topCount, tied := ids[i], count, false;
      } else if count == topCount {
        tied := true;
      }
      seen := seen + {ids[i]};
    }
    assert forall t :: t in tallies ==> t in ids;
    assert seen == tallies.Keys;
    TopLeads(tallies, top, topCount, tied);
  }

  lemma NothingSeen(tallies: map<Id, nat>)
    ensures IsTop(tallies, {}, NO_ID, 0, false)
  {
  }

  lemma DifferentIds(ids: seq<Id>)
    requires Ordered(Less, ids)
    ensures forall i, j :: 0 <= i < j < |ids| ==> ids[i] != ids[j]
  {
    forall i, j | 0 <= i < j < |ids| ensures ids[i] != ids[j] {
      assert Less(ids[i], ids[j]);
    }
  }

  lemma TopIsElected(votes: Votes, tallies: map<Id, nat>, top: Id, tied: bool)
    requires IsTally(votes, tallies)
    requires forall t :: t != NO_ID ==> (top == t && !tied <==> Leads(tallies, t))
    ensures Elected(votes) == if top == NO_ID || tied then NO_ID else top
  {
    forall t ensures t != NO_ID && Leads(tallies, t) <==> LeadsAlone(votes, t) {
      LeaderOfTally(votes, tallies, t);
    }
    hide Leads, IsTally;
    ElectedLeads(votes);
    NobodyElected(votes);
    if top != NO_ID && !tied {
      LeadersAgree(votes, top, Elected(votes));
    }
  }

  lemma NamedHasSome(votes: Votes, v: Id, t: Id)
    requires v in votes && votes[v] == t
    ensures Tally(votes, t) > 0
  {
    var mine := set w | w in votes && votes[w] == t;
    assert v in mine;
  }

  lemma LeaderOfTally(votes: Votes, tallies: map<Id, nat>, t: Id)
    requires IsTally(votes, tallies)
    ensures t != NO_ID && Leads(tallies, t) <==> LeadsAlone(votes, t)
  {
    forall v | v in votes && votes[v] != NO_ID ensures Tally(votes, votes[v]) > 0 {
      NamedHasSome(votes, v, votes[v]);
    }
    forall u ensures Tally(votes, u) > 0 ==> exists v :: v in votes && votes[v] == u {
      UnnamedHasNone(votes, u);
    }
    hide Tally;
  }

  lemma ReportAt(victims: set<Id>, round: int, at: int)
    ensures var report := EliminationLog(victims, round, at);
      if victims == {} then report == [LogEntry(NightNoElimination, round, at)]
      else |report| == |Sorted(victims)| && forall i :: 0 <= i < |report| ==> report[i] == LogEntry(NightEliminated(Sorted(victims)[i]), round, at)
  {
  }

  // ---- What the handlers lean on ---------------------------------------------------------------

  // The first n of these seats have their roles; the others are as they were.
  ghost predicate DealtUpTo(before: Players, now: Players, ids: seq<Id>, roles: seq<Role>, n: nat) {
    && n <= |ids| <= |roles| && now.Keys == before.Keys
    && (forall j :: 0 <= j < |ids| ==> ids[j] in before)
    && (forall j :: 0 <= j < n ==> now[ids[j]] == before[ids[j]].(role := roles[j], alive := true, shooterUsed := false))
    && (forall j :: n <= j < |ids| ==> now[ids[j]] == before[ids[j]])
  }

  lemma NobodyDealt(players: Players, ids: seq<Id>, roles: seq<Role>)
    requires |ids| <= |roles| && forall j :: 0 <= j < |ids| ==> ids[j] in players
    ensures DealtUpTo(players, players, ids, roles, 0)
  {
  }

  lemma OneMoreDealt(before: Players, now: Players, ids: seq<Id>, roles: seq<Role>, n: nat)
    requires DealtUpTo(before, now, ids, roles, n) && n < |ids|
    requires forall i, j :: 0 <= i < j < |ids| ==> ids[i] != ids[j]
    ensures ids[n] in now
    ensures DealtUpTo(before, now[ids[n] := now[ids[n]].(role := roles[n], alive := true, shooterUsed := false)], ids, roles, n + 1)
  {
  }

  lemma EveryoneDealt(before: Players, now: Players, ids: seq<Id>, roles: seq<Role>)
    requires |roles| == |before| && ids == Sorted(before.Keys) && DealtUpTo(before, now, ids, roles, |ids|)
    ensures now == Dealt(before, roles)
  {
    hide Dealt, Sorted;
    DealtRoles(before, roles);
    forall p | p in now ensures now[p] == Dealt(before, roles)[p] {
      assert p in ids;
    }
  }

  lemma DeckShuffled(count: nat, configuration: RoleConfiguration, draws: seq<nat>)
    requires 1 <= count <= |draws|
    ensures ShuffledDeck(count, configuration, draws) == Shuffled(RoleDeck(count, configuration), draws, count - 1)
  {
  }

  lemma NightIsOrderly(r: Room)
    requires Inv(r) && r.phase == Night
    ensures CastOk(r.players) && ActionsOk(r.players, r.nightActions) && NO_ID !in r.players
  {
    NightParts(r);
    CoreParts(r);
    hide Inv, CastOk, ActionsOk;
  }

  lemma DeadlineMeansActive(r: Room)
    requires Inv(r) && r.deadline.Some?
    ensures IsActive(r.phase)
  {
    assert ClockOk(r);
    hide Inv;
  }

  lemma ShotKeepsPhase(r: Room, p: Id, target: Id, at: int)
    requires p in r.players
    ensures ShotFired(r, p, target, at).phase == r.phase
  {
  }

  class State {
    const base: PhaseDurations
    const maxSpectators: int
    var phase: Phase
    var startedAt: int
    var deadline: Option<int>
    var durations: PhaseDurations
    var settings: GameSettings
    var owner: Id
    var players: Players
    var spectators: map<Id, Spectator>
    var locked: bool
    var maxPlayers: int
    var round: int
    var nightActions: Actions
    var votes: Votes
    var investigations: Investigations
    var lastWords: Id
    var result: Option<GameResult>
    var log: seq<LogEntry>
    var updatedAt: int
    // Everything logged since the log was last cleared.
    ghost var history: seq<LogEntry>

    ghost function View(): Room
      reads this
    {
      Room(phase, startedAt, deadline, base, durations, settings, owner, players, spectators, locked, maxPlayers,
           maxSpectators, round, nightActions, votes, investigations, lastWords, result, history, updatedAt)
    }

    ghost predicate LogKept()
      reads this`log, this`history
    {
      log == Kept(history)
    }

    // The fields hold a reachable room and the log its latest entries.
    ghost predicate Valid()
      reads this
    {
      LogKept() && Inv(View()) && Reachable(View())
    }

    // A refused event leaves the room as it was; an accepted one makes it what the outcome says.
    ghost predicate Matches(r: Result<Reply, Error>, before: Room, outcome: Outcome)
      reads this
    {
      && LogKept()
      && match outcome
         case Rejected(error) => r == Err(error) && View() == before
         case Accepted(room, reply) => r == Ok(reply) && View() == room
    }

    constructor (durations: PhaseDurations, maxSpectators: int, now: int)
      requires durations.Valid() && maxSpectators > 0
      ensures Valid() && View() == NewRoom(durations, maxSpectators, now)
    {
      base, this.durations := durations, durations;
      this.maxSpectators, maxPlayers := maxSpectators, DEFAULT_MAX_PLAYERS;
      phase, startedAt, deadline := Waiting, now, None;
      settings := StandardGameSettings(durations);
      owner, players, spectators, locked := NO_ID, map[], map[], false;
      round, nightActions, votes, investigations := 0, map[], map[], map[];
      lastWords, result, log, history, updatedAt := NO_ID, None, [], [], now;
      new;
      NewRoomInv(durations, maxSpectators, now);
      NewRoomReachable(durations, maxSpectators, now);
      hide Inv, Reachable;
    }

    // ---- Log, phases, win ---------------------------------------------------------------------

    method AppendLog(kind: LogKind, at: int)
      requires LogKept()
      modifies this`log, this`history
      ensures LogKept() && history == old(history) + [LogEntry(kind, round, at)]
    {
      log := log + [LogEntry(kind, round, at)];
      history := history + [LogEntry(kind, round, at)];
      if |log| > MAX_EVENT_LOG_ENTRIES {
        log := log[|log| - MAX_EVENT_LOG_ENTRIES..];
      }
    }

    method Enter(next: Phase, at: int)
      modifies this`phase, this`startedAt, this`deadline
      ensures View() == EnterPhase(old(View()), next, at)
    {
      phase, startedAt := next, at;
      var duration := durations.For(next);
      if duration > 0 {
        deadline := Some(at + duration);
      } else {
        deadline := None;
      }
    }

    method Finish(winner: Winner, at: int)
      requires LogKept()
      modifies this`phase, this`startedAt, this`deadline, this`result, this`log, this`history
      ensures LogKept()
      ensures View() == Logged(EnterPhase(old(View()), Finished, at).(result := Some(GameResult(winner, at))), GameFinished(winner), at)
    {
      Enter(Finished, at);
      result := Some(GameResult(winner, at));
      AppendLog(GameFinished(winner), at);
    }

    method CountSides() returns (killers: nat, others: nat)
      ensures killers == |LivingKillers(players)| && others == |LivingOthers(players)|
    {
      killers, others := 0, 0;
      var todo := players.Keys;
      while todo != {}
        invariant todo <= players.Keys
        invariant killers == |LivingKillers(players) - todo| && others == |LivingOthers(players) - todo|
      {
        var p :| p in todo;
        OneTakenOut(LivingKillers(players), todo, p);
        OneTakenOut(LivingOthers(players), todo, p);
        if players[p].alive {
          if IsKillerAligned(players[p].role) {
            killers := killers + 1;
          } else {
            others := others + 1;
          }
        }
        todo := todo - {p};
      }
      assert LivingKillers(players) - todo == LivingKillers(players);
      assert LivingOthers(players) - todo == LivingOthers(players);
    }

    method CheckWin(at: int) returns (over: bool)
      requires LogKept()
      modifies this`phase, this`startedAt, this`deadline, this`result, this`log, this`history
      ensures LogKept()
      ensures !IsActive(old(phase)) ==> (over <==> phase == Finished) && View() == old(View())
      ensures IsActive(old(phase)) ==> (
        && over == IsDecided(players)
        && View() == if over then FinishGame(old(View()), at) else old(View()))
    {
      if phase == Waiting || phase == Finished {
        return phase == Finished;
      }
      var killers, others := CountSides();
      assert LivingKillers(players) == {} <==> killers == 0;
      hide LivingKillers, LivingOthers;
      if killers == 0 {
        Finish(VillagersWin, at);
        return true;
      } else if killers >= others {
        Finish(KillersWin, at);
        return true;
      }
      return false;
    }

    // ---- Seats --------------------------------------------------------------------------------

    method NonOwnersAreReady() returns (ready: bool)
      ensures ready == NonOwnersReady(players, owner)
    {
      var todo := players.Keys;
      while todo != {}
        invariant todo <= players.Keys
        invariant forall p :: p in players && p !in todo ==> p == owner || players[p].ready
      {
        var p :| p in todo;
        if p != owner && !players[p].ready {
          return false;
        }
        todo := todo - {p};
      }
      return true;
    }

    method ClearReadiness()
      modifies this`players
      ensures players == WithoutReadiness(old(players), owner)
    {
      var todo := players.Keys;
      while todo != {}
        invariant todo <= players.Keys == old(players.Keys)
        invariant forall p :: p in players && p in todo ==> players[p] == old(players)[p]
        invariant forall p :: p in players && p !in todo ==> players[p] == WithoutReadiness(old(players), owner)[p]
      {
        var p :| p in todo;
        if p != owner {
          players := players[p := players[p].(ready := false)];
        }
        todo := todo - {p};
      }
    }

    method NextOwner() returns (next: Id)
      ensures next == if players == map[] then NO_ID else Least(players.Keys)
    {
      var ids := SortedKeys(players.Keys);
      if |ids| == 0 {
        assert |players.Keys| == 0;
        return NO_ID;
      }
      assert ids[0] in ids;
      FirstIsLeast(ids, players.Keys, 0);
      return ids[0];
    }

    method EnsureConnectedOwner()
      modifies this`owner
      ensures owner == ConnectedOwner(old(owner), players)
    {
      if owner in players && players[owner].connected {
        return;
      }
      hide Least;
      var first := FirstConnected();
      if first.Some? {
        owner := first.value;
      }
    }

    method FirstConnected() returns (first: Option<Id>)
      ensures first == if Connected(players) == {} then None else Some(Least(Connected(players)))
    {
      hide Sorted, Least;
      var ids := SortedKeys(players.Keys);
      for i := 0 to |ids|
        invariant forall j :: 0 <= j < i ==> ids[j] !in Connected(players)
      {
        assert ids[i] in ids;
        if players[ids[i]].connected {
          FirstIsLeast(ids, Connected(players), i);
          return Some(ids[i]);
        }
      }
      assert forall p :: p in Connected(players) ==> p in ids;
      return None;
    }

    // ---- Night --------------------------------------------------------------------------------

    method AllActionsSubmitted() returns (all: bool)
      ensures all == AllNightActionsSubmitted(players, nightActions)
    {
      var todo := players.Keys;
      while todo != {}
        invariant todo <= players.Keys
        invariant forall p :: p in players && p !in todo && HasNightAction(players, p) ==> p in nightActions
      {
        var p :| p in todo;
        if players[p].alive && NightActionForRole(players[p].role).Some? && p !in nightActions {
          assert HasNightAction(players, p);
          return false;
        }
        todo := todo - {p};
      }
      return true;
    }

    method RecordInvestigation(action: NightAction)
      modifies this`investigations
      ensures investigations == WithFinding(old(investigations), players, action, round)
    {
      if action.target !in players {
        return;
      }
      var target := players[action.target];
      var finding := Investigation(round, action.target, target.name, IsKillerAligned(target.role));
      var known := if action.player in investigations then investigations[action.player] else [];
      investigations := investigations[action.player := known + [finding]];
    }

    // The actions in order; a blocked player's does nothing.
    method CarryOut() returns (eliminated: set<Id>)
      requires CastOk(players) && ActionsOk(players, nightActions) && NO_ID !in players
      modifies this`players, this`investigations
      ensures eliminated == Victims(nightActions)
      ensures players == Slain(old(players), eliminated)
      ensures investigations == Investigated(old(investigations), nightActions, old(players), round)
    {
      hide CastOk, ActionsOk, HasNightAction, KeyedByPlayer, IsNightOrder, Blocked, Protected, Investigated, Victims,
        BlockedBy, ProtectedBy, VictimsOf, FoundBy, Slain, Finding, FindingsOf, WithFinding;
      ActionsAreFiled(players, nightActions);
      var ordered := OrderNightActions(nightActions);
      var blocked: set<Id>, protected: set<Id> := {}, {};
      eliminated := {};
      ghost var before, known := players, investigations;
      NothingDone(before, known, nightActions, round);
      for i := 0 to |ordered|
        invariant blocked == BlockedBy(ordered[..i])
        invariant protected == ProtectedBy(ordered[..i], nightActions)
        invariant eliminated == VictimsOf(ordered[..i], nightActions)
        invariant players == Slain(before, eliminated)
        invariant investigations == FoundBy(known, ordered[..i], nightActions, before, round)
      {
        var action := ordered[i];
        NightStep(before, known, nightActions, ordered, i, round);
        OneMoreAction(ordered[..i], action, nightActions);
        TellsTheSame(before, investigations, eliminated, action, round);
        if action.player in blocked {
          continue;
        }
        match action.kind
        case Block =>
          if action.target != NO_ID {
            blocked := blocked + {action.target};
          }
        case Protect =>
          if action.target != NO_ID {
            protected := protected + {action.target};
          }
        case Kill =>
          if action.target != NO_ID && action.target !in protected {
            if action.target in players && players[action.target].alive {
              OneMoreSlain(before, eliminated, action.target);
              players := players[action.target := players[action.target].(alive := false)];
              eliminated := eliminated + {action.target};
            }
          }
        case Investigate =>
          RecordInvestigation(action);
        case Pass =>
      }
      assert ordered[..|ordered|] == ordered;
      EverythingDone(before, known, nightActions, ordered, round);
    }

    method ReportDeaths(eliminated: set<Id>, at: int)
      requires LogKept()
      modifies this`log, this`history
      ensures LogKept() && history == old(history) + EliminationLog(eliminated, round, at)
    {
      ghost var report := EliminationLog(eliminated, round, at);
      ReportAt(eliminated, round, at);
      hide EliminationLog, Kept, Sorted, Lists;
      if eliminated == {} {
        AppendLog(NightNoElimination, at);
        return;
      }
      var ids := SortedKeys(eliminated);
      for i := 0 to |ids|
        invariant LogKept()
        invariant history == old(history) + report[..i]
      {
        AppendLog(NightEliminated(ids[i]), at);
        assert report[..i + 1] == report[..i] + [report[i]];
      }
      assert report[..|ids|] == report;
    }

    method PruneVotes()
      modifies this`votes
      ensures votes == PrunedVotes(old(votes), players)
    {
      var todo := votes.Keys;
      while todo != {}
        invariant todo <= old(votes).Keys && votes.Keys == todo + PrunedVotes(old(votes), players).Keys
        invariant forall v :: v in todo ==> votes[v] == old(votes)[v]
        invariant forall v :: v in votes && v !in todo ==> votes[v] == PrunedVotes(old(votes), players)[v]
      {
        var v :| v in todo;
        if v !in players || !players[v].alive {
          votes := votes - {v};
        } else if votes[v] != NO_ID && (votes[v] !in players || !players[votes[v]].alive) {
          votes := votes[v := NO_ID];
        }
        todo := todo - {v};
      }
    }

    method ResolveNight(at: int)
      requires LogKept() && phase == Night
      requires CastOk(players) && ActionsOk(players, nightActions) && NO_ID !in players
      modifies this
      ensures LogKept() && View() == NightResolved(old(View()), at)
    {
      hide CastOk, ActionsOk, Victims, Investigated, EliminationLog, PrunedVotes, Slain, Kept;
      ghost var before := View();
      var eliminated := CarryOut();
      ReportDeaths(eliminated, at);
      nightActions := map[];
      PruneVotes();
      assert View() == Morning(before, at);
      hide Morning;
      BeginDay(at);
    }

    method BeginDay(at: int)
      requires LogKept() && phase == Night
      modifies this
      ensures LogKept()
      ensures View() == if IsDecided(players) then FinishGame(old(View()), at)
        else Logged(EnterPhase(old(View()), DayDiscussion, at).(votes := map[]), DayStarted, at)
      ensures players == old(players)
    {
      hide IsDecided, FinishGame, Kept;
      var over := CheckWin(at);
      if over {
        return;
      }
      Enter(DayDiscussion, at);
      votes := map[];
      AppendLog(DayStarted, at);
    }

    // ---- Day ----------------------------------------------------------------------------------

    method AllLivingPlayersVoted() returns (all: bool)
      ensures all <==> AllLivingVoted(players, votes) && Living(players) != {}
    {
      var living: nat := 0;
      var todo := players.Keys;
      while todo != {}
        invariant todo <= players.Keys
        invariant forall p :: p in Living(players) && p !in todo ==> p in votes
        invariant living > 0 <==> exists p :: p in Living(players) && p !in todo
      {
        var p :| p in todo;
        if players[p].alive {
          assert p in Living(players);
          living := living + 1;
          if p !in votes {
            return false;
          }
        }
        todo := todo - {p};
      }
      return living > 0;
    }

    method StartVoting(at: int, opener: Id)
      requires LogKept()
      modifies this`phase, this`startedAt, this`deadline, this`votes, this`log, this`history
      ensures LogKept() && View() == VotingOpened(old(View()), opener, at)
    {
      Enter(DayVoting, at);
      votes := map[];
      AppendLog(VotingStarted(opener), at);
    }

    method AdvanceAfterDay(at: int)
      requires LogKept() && IsActive(phase)
      modifies this
      ensures LogKept() && View() == AfterDay(old(View()), at)
    {
      hide IsDecided;
      var over := CheckWin(at);
      if over {
        return;
      }
      round := round + 1;
      Enter(Night, at);
      nightActions := map[];
      AppendLog(NightStarted, at);
    }

    method ExecuteNobody(at: int)
      requires LogKept() && IsActive(phase)
      modifies this
      ensures LogKept() && View() == AfterDay(Logged(old(View()).(votes := map[]), VoteNoExecution, at), at)
    {
      hide AfterDay, Kept;
      ghost var quiet := Logged(View().(votes := map[]), VoteNoExecution, at);
      AppendLog(VoteNoExecution, at);
      votes := map[];
      assert View() == quiet;
      AdvanceAfterDay(at);
    }

    method Execute(target: Id, at: int)
      requires LogKept() && target in players
      modifies this
      ensures LogKept() && View() == Executed(old(View()), target, at)
    {
      hide Kept;
      OneSlain(players, target);
      players := players[target := players[target].(alive := false)];
      AppendLog(PlayerExecuted(target), at);
      votes := map[];
      lastWords := target;
      Enter(LastWords, at);
      AppendLog(LastWordsStarted(target), at);
    }

    method ResolveVote(at: int)
      requires LogKept() && IsActive(phase) && AllLivingVoted(players, votes)
      modifies this
      ensures LogKept() && View() == VoteResolved(old(View()), at)
    {
      ghost var before := View();
      hide AfterDay, IsDecided, WinnerOf, Kept, IsTally, Tally, Leads, LeadsAlone, Elected, PrunedVotes, AllLivingVoted, Slain, EnterPhase;
      PruneVotes();
      var tallies := CountBallots(votes);
      var top, tied := TopVoteTarget(tallies);
      TopIsElected(votes, tallies, top, tied);
      ElectedIsLiving(before.votes, players);
      if top == NO_ID || tied || !(top in players && players[top].alive) {
        ExecuteNobody(at);
      } else {
        Execute(top, at);
      }
    }

    // ---- Events -------------------------------------------------------------------------------

    method TakeSeatAgain(p: Id, name: string)
      requires p in players
      modifies this`players, this`owner
      ensures View() == Rejoined(old(View()), p, name)
    {
      hide ConnectedOwner;
      players := players[p := players[p].(name := name, connected := true, afk := false)];
      EnsureConnectedOwner();
    }

    method TakeSeat(p: Id, name: string, token: Token, at: int)
      modifies this`players, this`owner
      ensures View() == PlayerSeated(old(View()), p, name, token, at)
    {
      players := players[p := Player(name, token, false, true, NoRole, true, false, false, 0, at)];
      if owner == NO_ID {
        owner := p;
      }
    }

    method ApplyJoin(p: Id, kind: EventKind, at: int, entropy: Entropy) returns (r: Result<Reply, Error>)
      requires LogKept() && kind.Join?
      modifies this
      ensures Matches(r, old(View()), AfterJoin(old(View()), p, kind, at, entropy))
    {
      hide Rejoined, PlayerSeated, Kept;
      if p == NO_ID {
        return Err(PlayerIDRequired);
      } else if kind.name == "" {
        return Err(PlayerNameRequired);
      }
      if p in players {
        if kind.spectator {
          return Err(ParticipantTypeMismatch);
        } else if kind.token == NO_TOKEN {
          return Err(ReconnectTokenRequired);
        } else if kind.token != players[p].token {
          return Err(InvalidReconnectToken);
        }
        TakeSeatAgain(p, kind.name);
        updatedAt := at;
        return Ok(StateReply);
      }
      if p in spectators {
        if !kind.spectator {
          return Err(ParticipantTypeMismatch);
        } else if kind.token == NO_TOKEN {
          return Err(ReconnectTokenRequired);
        } else if kind.token != spectators[p].token {
          return Err(InvalidReconnectToken);
        }
        spectators := spectators[p := spectators[p].(name := kind.name, connected := true, afk := false)];
        updatedAt := at;
        return Ok(StateReply);
      }
      if locked {
        return Err(RoomLocked);
      }
      if kind.spectator {
        if |spectators| >= maxSpectators {
          return Err(SpectatorLimitReached);
        } else if entropy.token == NO_TOKEN {
          return Err(EntropyFailure);
        }
        spectators := spectators[p := Spectator(kind.name, entropy.token, true, false, 0, at)];
        updatedAt := at;
        return Ok(StateReply);
      }
      if phase != Waiting {
        return Err(RoomNotJoinable);
      } else if |players| >= maxPlayers {
        return Err(RoomFull);
      } else if entropy.token == NO_TOKEN {
        return Err(EntropyFailure);
      }
      TakeSeat(p, kind.name, entropy.token, at);
      updatedAt := at;
      return Ok(StateReply);
    }

    // A player gives up the seat while waiting, and only the connection later.
    method LeaveSeat(p: Id)
      requires p in players
      modifies this`players, this`owner
      ensures View() == if phase == Waiting
        then old(View()).(players := old(players) - {p},
                          owner := if old(owner) != p then old(owner) else if old(players) - {p} == map[] then NO_ID else Least((old(players) - {p}).Keys))
        else PlayerDropped(old(View()), p)
    {
      hide Least, ConnectedOwner;
      if phase == Waiting {
        players := players - {p};
        if owner == p {
          owner := NextOwner();
        }
      } else {
        players := players[p := players[p].(connected := false, afk := false)];
        if owner == p {
          EnsureConnectedOwner();
        }
      }
    }

    method ApplyLeave(p: Id, at: int) returns (r: Result<Reply, Error>)
      requires LogKept()
      modifies this
      ensures Matches(r, old(View()), AfterLeave(old(View()), p, at))
    {
      hide Kept, Least, PlayerDropped;
      if p in players {
        LeaveSeat(p);
        updatedAt := at;
        return Ok(StateReply);
      }
      if p !in spectators {
        return Err(ParticipantNotFound);
      }
      if phase == Waiting {
        spectators := spectators - {p};
      } else {
        spectators := spectators[p := spectators[p].(connected := false, afk := false)];
      }
      updatedAt := at;
      return Ok(StateReply);
    }

    method ApplyDisconnect(p: Id, at: int) returns (r: Result<Reply, Error>)
      requires LogKept()
      modifies this
      ensures Matches(r, old(View()), AfterDisconnect(old(View()), p, at))
    {
      hide ConnectedOwner, Kept;
      if p in players {
        players := players[p := players[p].(connected := false, afk := false)];
        if owner == p {
          EnsureConnectedOwner();
        }
        assert View() == PlayerDropped(old(View()), p);
        updatedAt := at;
        return Ok(StateReply);
      }
      if p in spectators {
        spectators := spectators[p := spectators[p].(connected := false, afk := false)];
        updatedAt := at;
        return Ok(StateReply);
      }
      return Err(ParticipantNotFound);
    }

    method ApplyReady(p: Id, ready: bool, at: int) returns (r: Result<Reply, Error>)
      requires LogKept()
      modifies this
      ensures Matches(r, old(View()), AfterReady(old(View()), p, ready, at))
    {
      if phase != Waiting {
        return Err(RoomNotWaiting);
      } else if p !in players {
        return Err(PlayerNotFound);
      }
      players := players[p := players[p].(ready := ready)];
      updatedAt := at;
      return Ok(StateReply);
    }

    method ApplyPresence(p: Id, afk: bool, at: int) returns (r: Result<Reply, Error>)
      requires LogKept()
      modifies this
      ensures Matches(r, old(View()), AfterPresence(old(View()), p, afk, at))
    {
      if p in players {
        players := players[p := players[p].(afk := afk)];
        updatedAt := at;
        return Ok(StateReply);
      }
      if p in spectators {
        spectators := spectators[p := spectators[p].(afk := afk)];
        updatedAt := at;
        return Ok(StateReply);
      }
      return Err(ParticipantNotFound);
    }

    // The roles, one to a seat, in the order of the seats' ids.
    method Deal(roles: array<Role>)
      requires roles.Length == |players|
      modifies this`players
      ensures players == Dealt(old(players), roles[..])
    {
      hide Dealt, Sorted, IndexOf, Lists, DealtUpTo;
      ghost var before := players;
      DealtRoles(players, roles[..]);
      var ids := SortedKeys(players.Keys);
      NobodyDealt(before, ids, roles[..]);
      for i := 0 to |ids|
        invariant DealtUpTo(before, players, ids, roles[..], i)
      {
        OneMoreDealt(before, players, ids, roles[..], i);
        players := players[ids[i] := players[ids[i]].(role := roles[i], alive := true, shooterUsed := false)];
      }
      EveryoneDealt(before, players, ids, roles[..]);
    }

    method DealRoles(draws: seq<nat>)
      requires 1 <= |players| <= |draws|
      modifies this`players
      ensures players == Dealt(old(players), ShuffledDeck(|old(players)|, settings.roles, draws))
    {
      hide Dealt, Shuffled, RoleDeck;
      var deck := BuildRoleDeck(|players|, settings.roles);
      var roles := new Role[|deck|](i requires 0 <= i < |deck| => deck[i]);
      assert roles[..] == deck;
      ShuffleRoles(roles, draws);
      DeckShuffled(|players|, settings.roles, draws);
      Deal(roles);
    }

    method DealAndBegin(p: Id, at: int, draws: seq<nat>, chosen: PhaseDurations)
      requires 1 <= |players| <= |draws|
      modifies this
      ensures LogKept()
      ensures View() == GameStartedRoom(old(View()), p, at, chosen, ShuffledDeck(|old(players)|, old(settings).roles, draws))
    {
      hide ShuffledDeck, Dealt, EnterPhase, Cleared, Logged;
      DealRoles(draws);
      durations := chosen;
      BeginGame(p, at);
    }

    method ApplyStartGame(p: Id, at: int, draws: seq<nat>, entropy: Entropy) returns (r: Result<Reply, Error>)
      requires LogKept() && draws == entropy.draws
      modifies this
      ensures Matches(r, old(View()), AfterStartGame(old(View()), p, at, entropy))
    {
      hide Kept, ValidateForStart, NonOwnersReady, ShuffledDeck, Dealt;
      ghost var before := View();
      if phase == Finished {
        return Err(AlreadyFinished);
      } else if phase != Waiting {
        return Err(RoomNotWaiting);
      } else if p != owner {
        return Err(OwnerOnly);
      }
      var checked := ValidateForStart(settings, maxPlayers, base);
      if checked.Err? {
        return Err(SettingsRejected(checked.error));
      } else if |players| < settings.minimumPlayers {
        return Err(NotEnoughPlayers);
      }
      var ready := NonOwnersAreReady();
      if !ready {
        return Err(PlayersNotReady);
      } else if |draws| < |players| {
        return Err(EntropyFailure);
      }
      assert StartRefusal(before, p, draws) == None;
      hide StartRefusal;
      hide GameStartedRoom;
      DealAndBegin(p, at, draws, checked.value);
      updatedAt := at;
      return Ok(StateReply);
    }

    method ForgetMoves()
      modifies this`nightActions, this`votes, this`investigations
      ensures View() == old(View()).(nightActions := map[], votes := map[], investigations := map[])
    {
      nightActions, votes, investigations := map[], map[], map[];
    }

    method ClearGame(first: int)
      modifies this
      ensures LogKept() && View() == Cleared(old(View()), first)
    {
      ForgetMoves();
      round, lastWords, result, log, history := first, NO_ID, None, [], [];
    }

    method BeginGame(p: Id, at: int)
      modifies this
      ensures LogKept()
      ensures View() == Logged(Logged(EnterPhase(Cleared(old(View()), 1), Night, at), GameStarted(p), at), NightStarted, at)
    {
      Enter(Night, at);
      ClearGame(1);
      AppendLog(GameStarted(p), at);
      AppendLog(NightStarted, at);
    }

    method ApplyChat(p: Id, message: string, at: int) returns (r: Result<Reply, Error>)
      requires LogKept()
      modifies this
      ensures Matches(r, old(View()), AfterChat(old(View()), p, message, at))
    {
      var name: string;
      if p in players {
        if phase == LastWords && p != lastWords {
          return Err(LastWordsSpeakerOnly);
        } else if phase != Waiting && phase != Finished && phase != LastWords && !players[p].alive {
          return Err(PlayerDead);
        }
        name := players[p].name;
      } else {
        if p !in spectators {
          return Err(ParticipantNotFound);
        } else if phase != Waiting && phase != Finished {
          return Err(SpectatorCannotChat);
        }
        name := spectators[p].name;
      }
      if message == "" {
        return Err(EmptyMessage);
      } else if |message| > MAX_CHAT_BYTES {
        return Err(MessageTooLong);
      }
      updatedAt := at;
      return Ok(ChatReply(p, name, message));
    }

    // The night goes on until everyone with something to do has done it.
    method NightGoesOn(at: int)
      requires LogKept() && phase == Night
      requires CastOk(players) && ActionsOk(players, nightActions) && NO_ID !in players
      modifies this
      ensures LogKept() && View() == NightMaybeResolved(old(View()), at)
    {
      hide CastOk, ActionsOk, AllNightActionsSubmitted, NightResolved;
      var all := AllActionsSubmitted();
      if all {
        ResolveNight(at);
      }
    }

    // The action is recorded, and the night resolved if it was the last one awaited.
    method ActAtNight(p: Id, action: NightAction, at: int)
      requires LogKept() && phase == Night && ActionOk(players, p, action)
      requires CastOk(players) && ActionsOk(players, nightActions) && NO_ID !in players
      modifies this
      ensures LogKept()
      ensures View() == NightMaybeResolved(old(View()).(nightActions := old(nightActions)[p := action]), at).(updatedAt := at)
    {
      hide Kept, CastOk, ActionsOk, ActionOk, NightMaybeResolved;
      OneMoreActionOk(players, nightActions, p, action);
      nightActions := nightActions[p := action];
      NightGoesOn(at);
      updatedAt := at;
    }

    method ApplyNightAction(p: Id, target: Id, at: int) returns (r: Result<Reply, Error>)
      requires Valid()
      modifies this
      ensures Matches(r, old(View()), AfterNightAction(old(View()), p, target, at))
    {
      hide Inv, Reachable, Kept, CastOk, ActionsOk, NightMaybeResolved;
      ghost var before := View();
      if phase != Night {
        return Err(WrongPhase);
      } else if p !in players {
        return Err(PlayerNotFound);
      } else if !players[p].alive {
        return Err(PlayerDead);
      }
      NightIsOrderly(before);
      var rule := NightActionForRole(players[p].role);
      if rule.None? {
        return Err(RoleHasNoNightAction);
      } else if target == NO_ID || target !in players || !players[target].alive {
        return Err(InvalidTarget);
      } else if target == p && !rule.value.allowSelfTarget {
        return Err(SelfTargetNotAllowed);
      }
      ActAtNight(p, NightAction(p, target, rule.value.kind), at);
      return Ok(StateReply);
    }

    method ApplyNightPass(p: Id, at: int) returns (r: Result<Reply, Error>)
      requires Valid()
      modifies this
      ensures Matches(r, old(View()), AfterNightPass(old(View()), p, at))
    {
      hide Inv, Reachable, Kept, CastOk, ActionsOk, NightMaybeResolved;
      ghost var before := View();
      if phase != Night {
        return Err(WrongPhase);
      } else if p !in players {
        return Err(PlayerNotFound);
      } else if !players[p].alive {
        return Err(PlayerDead);
      }
      NightIsOrderly(before);
      if NightActionForRole(players[p].role).None? {
        return Err(RoleHasNoNightAction);
      }
      ActAtNight(p, NightAction(p, NO_ID, Pass), at);
      return Ok(StateReply);
    }

    method ApplyStartVote(p: Id, at: int) returns (r: Result<Reply, Error>)
      requires LogKept()
      modifies this
      ensures Matches(r, old(View()), AfterStartVote(old(View()), p, at))
    {
      hide Kept, VotingOpened;
      if phase != DayDiscussion {
        return Err(WrongPhase);
      } else if p != owner {
        return Err(OwnerOnly);
      }
      StartVoting(at, p);
      updatedAt := at;
      return Ok(StateReply);
    }

    // The vote is over once everyone living has voted.
    method VoteGoesOn(at: int)
      requires LogKept() && IsActive(phase)
      modifies this
      ensures LogKept() && View() == VoteMaybeResolved(old(View()), at)
    {
      hide AllLivingVoted, VoteResolved, Kept;
      var all := AllLivingPlayersVoted();
      if all {
        ResolveVote(at);
      }
    }

    method ApplyVote(p: Id, target: Id, at: int) returns (r: Result<Reply, Error>)
      requires LogKept()
      modifies this
      ensures Matches(r, old(View()), AfterVote(old(View()), p, target, at))
    {
      hide Kept, VoteMaybeResolved;
      if phase != DayVoting {
        return Err(WrongPhase);
      } else if p !in players {
        return Err(PlayerNotFound);
      } else if !players[p].alive {
        return Err(PlayerDead);
      } else if target != NO_ID && (target !in players || !players[target].alive) {
        return Err(InvalidTarget);
      }
      votes := votes[p := target];
      VoteGoesOn(at);
      updatedAt := at;
      return Ok(StateReply);
    }

    method MarkShot(p: Id, target: Id)
      requires p in players && target in players
      modifies this`players
      ensures players == Slain(old(players)[p := old(players)[p].(shooterUsed := true)], {target})
    {
      players := players[p := players[p].(shooterUsed := true)];
      OneSlain(players, target);
      hide Slain;
      players := players[target := players[target].(alive := false)];
    }

    method Fire(p: Id, target: Id, at: int)
      requires LogKept() && p in players && target in players
      modifies this`players, this`votes, this`log, this`history
      ensures LogKept() && View() == ShotFired(old(View()), p, target, at)
    {
      hide LogKept, Slain, PrunedVotes;
      MarkShot(p, target);
      AppendLog(ShooterFired(p, target), at);
      assert View() == Logged(old(View()).(players := players), ShooterFired(p, target), at);
      PruneVotes();
    }

    method SettleShot(at: int)
      requires LogKept() && IsDay(phase)
      modifies this
      ensures LogKept() && View() == ShotSettled(old(View()), at)
    {
      hide Kept, VoteMaybeResolved, FinishGame, IsDecided;
      var over := CheckWin(at);
      if !over && phase == DayVoting {
        VoteGoesOn(at);
      }
    }

    method ApplyShoot(p: Id, target: Id, at: int) returns (r: Result<Reply, Error>)
      requires LogKept()
      modifies this
      ensures Matches(r, old(View()), AfterShoot(old(View()), p, target, at))
    {
      hide Kept, ShotSettled, ShotFired;
      if !IsDay(phase) {
        return Err(WrongPhase);
      } else if p !in players {
        return Err(PlayerNotFound);
      } else if !players[p].alive {
        return Err(PlayerDead);
      } else if !CanShoot(players[p].role) {
        return Err(ShooterOnly);
      } else if players[p].shooterUsed {
        return Err(ShooterAlreadyUsed);
      } else if target == NO_ID || target !in players || !players[target].alive {
        return Err(InvalidTarget);
      } else if target == p {
        return Err(SelfTargetNotAllowed);
      }
      ShotKeepsPhase(View(), p, target, at);
      Fire(p, target, at);
      SettleShot(at);
      updatedAt := at;
      return Ok(StateReply);
    }

    method ApplyTransferOwner(p: Id, target: Id, at: int) returns (r: Result<Reply, Error>)
      requires LogKept()
      modifies this
      ensures Matches(r, old(View()), AfterTransferOwner(old(View()), p, target, at))
    {
      if p != owner {
        return Err(OwnerOnly);
      } else if target !in players || !players[target].connected {
        return Err(InvalidOwnerTarget);
      }
      owner := target;
      updatedAt := at;
      return Ok(StateReply);
    }

    // Ballots for someone who is gone become abstentions.
    method ForgetVotesFor(target: Id)
      modifies this`votes
      ensures votes == VotesWithout(old(votes), target)
    {
      votes := votes - {target};
      ghost var others := votes;
      var todo := votes.Keys;
      while todo != {}
        invariant todo <= votes.Keys == others.Keys
        invariant forall v :: v in todo ==> votes[v] == others[v]
        invariant forall v :: v in votes && v !in todo ==> votes[v] == if others[v] == target then NO_ID else others[v]
      {
        var v :| v in todo;
        if votes[v] == target {
          votes := votes[v := NO_ID];
        }
        todo := todo - {v};
      }
    }

    method Unseat(target: Id)
      modifies this`players, this`nightActions, this`votes, this`investigations
      ensures View() == Unseated(old(View()), target)
    {
      hide VotesWithout;
      players := players - {target};
      nightActions := nightActions - {target};
      investigations := investigations - {target};
      ForgetVotesFor(target);
    }

    method ApplyKick(p: Id, target: Id, at: int) returns (r: Result<Reply, Error>)
      requires LogKept()
      modifies this
      ensures Matches(r, old(View()), AfterKick(old(View()), p, target, at))
    {
      hide Kept, Unseated;
      if p != owner {
        return Err(OwnerOnly);
      } else if phase != Waiting && phase != Finished {
        return Err(KickNotAllowed);
      } else if target == owner {
        return Err(CannotKickOwner);
      }
      if target in players {
        Unseat(target);
        assert View() == Unseated(old(View()), target);
        updatedAt := at;
        return Ok(StateReply);
      }
      if target in spectators {
        spectators := spectators - {target};
        updatedAt := at;
        return Ok(StateReply);
      }
      return Err(ParticipantNotFound);
    }

    method ApplySetRoomLocked(p: Id, lock: bool, at: int) returns (r: Result<Reply, Error>)
      requires LogKept()
      modifies this
      ensures Matches(r, old(View()), if p != old(owner) then Rejected(OwnerOnly) else Accept(old(View()).(locked := lock), at))
    {
      if p != owner {
        return Err(OwnerOnly);
      }
      locked := lock;
      updatedAt := at;
      return Ok(StateReply);
    }

    method ApplySetPlayerLimit(p: Id, limit: int, at: int) returns (r: Result<Reply, Error>)
      requires LogKept()
      modifies this
      ensures Matches(r, old(View()), AfterSetPlayerLimit(old(View()), p, limit, at))
    {
      if p != owner {
        return Err(OwnerOnly);
      } else if phase != Waiting && phase != Finished {
        return Err(WrongPhase);
      } else if limit < MIN_PLAYERS_TO_START || limit > MAX_PLAYERS_ALLOWED {
        return Err(PlayerLimitOutOfRange);
      } else if limit < |players| {
        return Err(PlayerLimitBelowCurrent);
      } else if limit < settings.minimumPlayers {
        return Err(PlayerLimitBelowMinimum);
      }
      maxPlayers := limit;
      updatedAt := at;
      return Ok(StateReply);
    }

    method Adopt(chosen: GameSettings, inForce: PhaseDurations, at: int)
      requires LogKept()
      modifies this`settings, this`durations, this`players, this`updatedAt
      ensures Matches(Ok(StateReply), old(View()), AfterSettings(old(View()), chosen, inForce, at))
    {
      hide WithoutReadiness, Kept;
      settings := chosen;
      durations := inForce;
      ClearReadiness();
      assert View() == old(View()).(settings := chosen, durations := inForce, players := players);
      updatedAt := at;
    }

    method ApplySetGameSettings(p: Id, custom: GameSettings, at: int) returns (r: Result<Reply, Error>)
      requires LogKept()
      modifies this
      ensures Matches(r, old(View()), AfterSetGameSettings(old(View()), p, custom, at))
    {
      hide Validate, AfterSettings, Kept;
      if p != owner {
        return Err(OwnerOnly);
      } else if phase != Waiting && phase != Finished {
        return Err(WrongPhase);
      }
      var chosen := custom.(preset := Custom);
      var checked := Validate(chosen, maxPlayers);
      if checked.Err? {
        return Err(SettingsRejected(checked.error));
      }
      Adopt(chosen, checked.value, at);
      return Ok(StateReply);
    }

    method ApplySetGamePreset(p: Id, preset: GamePreset, at: int) returns (r: Result<Reply, Error>)
      requires LogKept()
      modifies this
      ensures Matches(r, old(View()), AfterSetGamePreset(old(View()), p, preset, at))
    {
      hide ValidateForStart, GameSettingsForPreset, AfterSettings, Kept;
      if p != owner {
        return Err(OwnerOnly);
      } else if phase != Waiting && phase != Finished {
        return Err(WrongPhase);
      }
      var chosen := GameSettingsForPreset(preset, base);
      if chosen.Err? {
        return Err(SettingsRejected(chosen.error));
      }
      var checked := ValidateForStart(chosen.value, maxPlayers, base);
      if checked.Err? {
        return Err(SettingsRejected(checked.error));
      }
      Adopt(chosen.value, checked.value, at);
      return Ok(StateReply);
    }

    // Seats nobody sits on are given up; the others are put back to where they were before a game.
    method ResetSeats()
      modifies this`players, this`spectators
      ensures players == SeatsReset(old(players)) && spectators == SpectatorsKept(old(spectators))
    {
      var todo := players.Keys;
      while todo != {}
        invariant todo <= old(players).Keys && players.Keys == todo + SeatsReset(old(players)).Keys
        invariant forall p :: p in todo ==> players[p] == old(players)[p]
        invariant forall p :: p in players && p !in todo ==> players[p] == SeatsReset(old(players))[p]
        invariant spectators == old(spectators)
      {
        var p :| p in todo;
        if !players[p].connected {
          players := players - {p};
        } else {
          players := players[p := players[p].(ready := false, role := NoRole, alive := true, shooterUsed := false)];
        }
        todo := todo - {p};
      }
      todo := spectators.Keys;
      while todo != {}
        invariant players == SeatsReset(old(players))
        invariant todo <= old(spectators).Keys && spectators.Keys == todo + SpectatorsKept(old(spectators)).Keys
        invariant forall p :: p in spectators ==> spectators[p] == old(spectators)[p]
      {
        var p :| p in todo;
        if !spectators[p].connected {
          spectators := spectators - {p};
        }
        todo := todo - {p};
      }
    }

    method WaitAgain(at: int)
      modifies this
      ensures LogKept() && View() == WaitingAgain(old(View()), at)
    {
      hide SeatsReset, SpectatorsKept, ConnectedOwner, DeadlineOf;
      ResetSeats();
      EnsureConnectedOwner();
      Enter(Waiting, at);
      ClearGame(0);
    }

    method ApplyReturnToWaiting(p: Id, at: int) returns (r: Result<Reply, Error>)
      requires LogKept()
      modifies this
      ensures Matches(r, old(View()), AfterReturnToWaiting(old(View()), p, at))
    {
      hide SeatsReset, SpectatorsKept, ConnectedOwner, Kept, WaitingAgain;
      if p != owner {
        return Err(OwnerOnly);
      } else if phase == Waiting {
        return Err(AlreadyWaiting);
      }
      WaitAgain(at);
      updatedAt := at;
      return Ok(StateReply);
    }

    // Every living actor who has not acted passes.
    method FillPasses()
      modifies this`nightActions
      ensures nightActions == WithPasses(players, old(nightActions))
    {
      var todo := players.Keys;
      while todo != {}
        invariant todo <= players.Keys
        invariant nightActions.Keys == old(nightActions).Keys + (set q | q in players && q !in todo && HasNightAction(players, q))
        invariant forall p :: p in nightActions ==>
          nightActions[p] == if p in old(nightActions) then old(nightActions)[p] else NightAction(p, NO_ID, Pass)
      {
        var p :| p in todo;
        if players[p].alive && NightActionForRole(players[p].role).Some? && p !in nightActions {
          nightActions := nightActions[p := NightAction(p, NO_ID, Pass)];
        }
        todo := todo - {p};
      }
    }

    // Every living player who has not voted abstains.
    method FillAbstentions()
      modifies this`votes
      ensures votes == WithAbstentions(players, old(votes))
    {
      var todo := players.Keys;
      while todo != {}
        invariant todo <= players.Keys
        invariant votes.Keys == old(votes).Keys + (Living(players) - todo)
        invariant forall p :: p in votes ==> votes[p] == if p in old(votes) then old(votes)[p] else NO_ID
      {
        var p :| p in todo;
        if players[p].alive && p !in votes {
          votes := votes[p := NO_ID];
        }
        todo := todo - {p};
      }
    }

    // The expiry is logged before the phase is looked at. That no refusal follows the entry is the
    // invariant's doing: a deadline stands in the four timed phases only.
    method ApplyPhaseTimeout(at: int) returns (r: Result<Reply, Error>)
      requires Valid()
      modifies this
      ensures Matches(r, old(View()), AfterPhaseTimeout(old(View()), at))
    {
      hide Inv, Reachable, Kept, CastOk, ActionsOk, TimedOut;
      ghost var before := View();
      if deadline.None? {
        return Err(WrongPhase);
      } else if at < deadline.value {
        return Err(PhaseDeadlineNotReached);
      }
      DeadlineMeansActive(before);
      if phase == Night {
        NightIsOrderly(before);
      }
      var known := Expire(at);
      if !known {
        return Err(WrongPhase);
      }
      updatedAt := at;
      return Ok(StateReply);
    }

    method CloseNight(at: int)
      requires LogKept() && phase == Night
      requires CastOk(players) && ActionsOk(players, nightActions) && NO_ID !in players
      modifies this
      ensures LogKept()
      ensures View() == NightResolved(old(View()).(nightActions := WithPasses(old(players), old(nightActions))), at)
    {
      hide Kept, CastOk, ActionsOk, HasNightAction, NightResolved, WithPasses;
      PassesAreOk(players, nightActions);
      FillPasses();
      ResolveNight(at);
    }

    method CloseVote(at: int)
      requires LogKept() && IsActive(phase)
      modifies this
      ensures LogKept()
      ensures AllLivingVoted(old(players), WithAbstentions(old(players), old(votes)))
      ensures View() == VoteResolved(old(View()).(votes := WithAbstentions(old(players), old(votes))), at)
    {
      hide Kept, Living, VoteResolved, WithAbstentions, AllLivingVoted;
      Seats.AllAbstain(players, votes);
      FillAbstentions();
      ResolveVote(at);
    }

    method Expire(at: int) returns (known: bool)
      requires LogKept()
      requires phase == Night ==> CastOk(players) && ActionsOk(players, nightActions) && NO_ID !in players
      modifies this
      ensures LogKept()
      ensures known <==> IsActive(old(phase))
      ensures known ==> View() == TimedOut(old(View()), at)
    {
      hide Kept, CastOk, ActionsOk, HasNightAction, Living, NightResolved, VoteResolved, AfterDay, VotingOpened, WithPasses, WithAbstentions, AllLivingVoted;
      AppendLog(PhaseTimedOut(phase), at);
      match phase {
        case Night =>
          CloseNight(at);
        case DayDiscussion =>
          StartVoting(at, NO_ID);
        case DayVoting =>
          CloseVote(at);
        case LastWords =>
          lastWords := NO_ID;
          AdvanceAfterDay(at);
        case _ =>
          return false;
      }
      return true;
    }

    // ---- What is shown ------------------------------------------------------------------------

    method TakeSnapshot() returns (snapshot: Snapshot)
      requires LogKept()
      ensures snapshot == SnapshotOf(View())
    {
      var playerViews: map<Id, PlayerView> := map[];
      var todo := players.Keys;
      while todo != {}
        invariant todo <= players.Keys && playerViews.Keys == players.Keys - todo
        invariant forall p :: p in playerViews ==> playerViews[p] == ViewOf(View(), p)
      {
        var p :| p in todo;
        var player := players[p];
        var alive := player.alive;
        if phase == Waiting {
          alive := true;
        }
        var role: Option<Role> := None;
        if phase == Finished || (settings.revealRolesOnDeath && phase != Waiting && !player.alive) {
          role := Some(player.role);
        }
        playerViews := playerViews[p := PlayerView(p, player.name, player.ready, player.connected, p == owner, alive, player.afk, role)];
        todo := todo - {p};
      }
      hide ViewOf, PresetCatalog;
      var playerOrder := ListByName(PlayerLabels(players));
      var spectatorOrder := ListByName(SpectatorLabels(spectators));
      var presets := GamePresetCatalog(base);
      var seats := spectators;
      var playerList := seq(|playerOrder|, i requires 0 <= i < |playerOrder| => assert playerOrder[i] in playerOrder; playerViews[playerOrder[i].id]);
      var spectatorList := seq(|spectatorOrder|, i requires 0 <= i < |spectatorOrder| =>
        assert spectatorOrder[i] in spectatorOrder;
        var spectator := seats[spectatorOrder[i].id];
        SpectatorView(spectatorOrder[i].id, spectator.name, spectator.connected, spectator.afk));
      assert playerList == PlayerViews(View(), playerOrder);
      assert spectatorList == SpectatorViews(View(), spectatorOrder);
      return Snapshot(owner, phase, startedAt, deadline, round, playerList, spectatorList, locked, maxPlayers, maxSpectators,
                      settings, presets, lastWords, result, log, updatedAt);
    }

    method ViewFor(p: Id) returns (view: Option<PrivateView>)
      ensures view == PrivateViewOf(View(), p)
    {
      if p !in players {
        if p !in spectators {
          return None;
        }
        return Some(SpectatorOnly(spectators[p].token));
      }
      var player := players[p];
      var role := NoRole;
      if phase != Waiting {
        role := player.role;
      }
      var actionRequired, canVote, canShoot, votedFor := false, false, false, NO_ID;
      var available: seq<Offer> := [];
      if NightActionForRole(player.role).Some? && phase == Night && player.alive {
        actionRequired := p !in nightActions;
        available := available + [OfferNightAction, OfferNightPass];
      }
      if phase == DayVoting && player.alive {
        canVote := true;
        votedFor := if p in votes then votes[p] else NO_ID;
        available := available + [OfferVote];
      }
      if IsDay(phase) && player.alive && CanShoot(player.role) && !player.shooterUsed {
        canShoot := true;
        available := available + [OfferShoot];
      }
      assert available == Offers(View(), p);
      hide Offers;
      return Some(PlayerOnly(player.token, role, player.alive || phase == Waiting, actionRequired, available, canVote, votedFor,
                             canShoot, FindingsOf(investigations, p)));
    }

    // ---- One event ----------------------------------------------------------------------------

    method Handle(e: Event, entropy: Entropy) returns (r: Result<Reply, Error>)
      requires Valid()
      modifies this
      ensures Matches(r, old(View()), Handled(old(View()), e, entropy))
    {
      hide Inv, Reachable, Kept, AfterJoin, AfterLeave, AfterDisconnect, AfterStartGame, AfterKick, AfterSetPlayerLimit, AfterSetGameSettings,
        AfterSetGamePreset, AfterReady, AfterPresence, AfterChat, AfterTransferOwner, AfterReturnToWaiting, AfterNightAction,
        AfterNightPass, AfterStartVote, AfterVote, AfterShoot, AfterPhaseTimeout;
      match e.kind
      case Join(_, _, _) => r := ApplyJoin(e.player, e.kind, e.at, entropy);
      case Leave => r := ApplyLeave(e.player, e.at);
      case Disconnect => r := ApplyDisconnect(e.player, e.at);
      case Ready(ready) => r := ApplyReady(e.player, ready, e.at);
      case StartGame => r := ApplyStartGame(e.player, e.at, entropy.draws, entropy);
      case Chat(message) => r := ApplyChat(e.player, message, e.at);
      case NightActionOn(target) => r := ApplyNightAction(e.player, target, e.at);
      case NightPass => r := ApplyNightPass(e.player, e.at);
      case StartVote => r := ApplyStartVote(e.player, e.at);
      case Vote(target) => r := ApplyVote(e.player, target, e.at);
      case Shoot(target) => r := ApplyShoot(e.player, target, e.at);
      case TransferOwner(target) => r := ApplyTransferOwner(e.player, target, e.at);
      case KickParticipant(target) => r := ApplyKick(e.player, target, e.at);
      case SetRoomLocked(lock) => r := ApplySetRoomLocked(e.player, lock, e.at);
      case SetPlayerLimit(limit) => r := ApplySetPlayerLimit(e.player, limit, e.at);
      case SetGameSettings(custom) => r := ApplySetGameSettings(e.player, custom, e.at);
      case SetGamePreset(preset) => r := ApplySetGamePreset(e.player, preset, e.at);
      case Presence(afk) => r := ApplyPresence(e.player, afk, e.at);
      case ReturnToWaiting => r := ApplyReturnToWaiting(e.player, e.at);
      case PhaseTimeout => r := ApplyPhaseTimeout(e.at);
      case Unknown => r := Err(UnknownEvent);
    }

    method RecordSequence(p: Id, sequence: nat)
      modifies this`players, this`spectators
      ensures View() == WithSequence(old(View()), p, sequence)
    {
      if p in players {
        players := players[p := players[p].(lastSequence := sequence)];
      } else if p in spectators {
        spectators := spectators[p := spectators[p].(lastSequence := sequence)];
      }
    }

    // What one event does is what the model says; the room is again a reachable one; a refused event
    // leaves everything, the kept log included, as it was.
    method Apply(e: Event, entropy: Entropy) returns (r: Result<Reply, Error>)
      requires Valid()
      modifies this
      ensures Valid()
      ensures Matches(r, old(View()), Step(old(View()), e, entropy))
      ensures r.Err? ==> View() == old(View()) && log == old(log)
    {
      hide Inv, Reachable, Handled, Kept, WithSequence;
      ghost var before := View();
      if e.sequence > 0 {
        var last := if e.player in players then Some(players[e.player].lastSequence)
                    else if e.player in spectators then Some(spectators[e.player].lastSequence)
                    else None;
        if last.Some? && e.sequence <= last.value {
          return Err(DuplicateClientEvent);
        }
      }
      r := Handle(e, entropy);
      if r.Err? {
        return;
      }
      if e.sequence > 0 {
        RecordSequence(e.player, e.sequence);
      }
      StepKeepsInv(before, e, entropy);
      StepReaches(before, e, entropy);
    }
  }
}
