// A deadline is no more than the missing players choosing nobody: whatever was sent before it stands
// (internal/room/state.go).

module Deadlines {
  import opened Rules
  import opened Settings
  import opened RoomModel
  import opened RoomInvariant
  import opened RoomRuns
  import opened Outcomes

  // These are the ones, each once.
  ghost predicate AreThe(ids: seq<Id>, wanted: set<Id>) {
    (forall i, j :: 0 <= i < j < |ids| ==> ids[i] != ids[j]) && forall p :: p in ids <==> p in wanted
  }

  // Each of them sends this at that time.
  function Each(ids: seq<Id>, kind: EventKind, at: int): (inputs: seq<Input>)
    ensures |inputs| == |ids|
    ensures forall i :: 0 <= i < |ids| ==> inputs[i] == Input(Event(ids[i], 0, kind, at), Entropy(NO_TOKEN, []))
  {
    seq(|ids|, i requires 0 <= i < |ids| => Input(Event(ids[i], 0, kind, at), Entropy(NO_TOKEN, [])))
  }

  function Deadline(at: int): Input {
    Input(Event(NO_ID, 0, PhaseTimeout, at), Entropy(NO_TOKEN, []))
  }

  // The same lives, findings and phase.
  ghost predicate SameEnd(s: Room, t: Room) {
    && s.phase == t.phase && s.players.Keys == t.players.Keys
    && (forall p :: p in s.players ==> s.players[p].alive == t.players[p].alive)
    && (forall d :: FindingsOf(s.investigations, d) == FindingsOf(t.investigations, d))
    && (s.phase == LastWords ==> s.lastWords == t.lastWords)
  }

  // ---- A night ----------------------------------------------------------------------------------

  function MissingActors(r: Room): set<Id> {
    set p | p in r.players && IsMissing(r.players, ChoicesOf(r.nightActions), p)
  }

  function WithNobody(choices: Choices, ids: seq<Id>): Choices {
    map p | p in choices.Keys + (set q | q in ids) :: if p in ids then NO_ID else choices[p]
  }

  // The room while some of the missing have passed.
  ghost predicate IsWaitingStill(r: Room, s: Room, passed: seq<Id>) {
    && s == r.(nightActions := s.nightActions, updatedAt := s.updatedAt)
    && ChoicesOf(s.nightActions) == WithNobody(ChoicesOf(r.nightActions), passed)
  }

  lemma OnePasses(s: Room, p: Id, at: int)
    requires Inv(s) && s.phase == Night && IsMissing(s.players, ChoicesOf(s.nightActions), p)
    ensures var t, choices := After(s, Each([p], NightPass, at)[0]), ChoicesOf(s.nightActions)[p := NO_ID];
      if forall q :: !IsMissing(s.players, choices, q) then IsMorningAfter(s, choices, t)
      else t == s.(nightActions := t.nightActions, updatedAt := at) && ChoicesOf(t.nightActions) == choices
  {
    hide Inv, Handled, NightMaybeResolved, IsMorningAfter, IsMissing, IsFairNight, ChoicesOf;
    var e := Event(p, 0, NightPass, at);
    MissingActs(s, p);
    NightChoiceIsAcceptedExactly(s, e, Entropy(NO_TOKEN, []));
    NightCountsChoices(s, e, Entropy(NO_TOKEN, []));
    var acted := ChoiceActs(s, e, Entropy(NO_TOKEN, []));
    StillOpen(acted, at);
    hide Step;
  }

  lemma MissingActs(s: Room, p: Id)
    requires IsMissing(s.players, ChoicesOf(s.nightActions), p)
    ensures ActsAtNight(s.players, p)
  {
  }

  lemma StillOpen(acted: Room, at: int)
    ensures NightMaybeResolved(acted, at) == acted || forall q :: !IsMissing(acted.players, ChoicesOf(acted.nightActions), q)
  {
    CompleteByRole(acted.players, acted.nightActions);
    hide AllNightActionsSubmitted, IsMissing;
  }

  lemma NightWaits(r: Room)
    requires Inv(r) && r.phase == Night
    ensures MissingActors(r) != {}
  {
    NightIsOpen(r);
    hide Inv, AllNightActionsSubmitted;
    CompleteByRole(r.players, r.nightActions);
    var p :| IsMissing(r.players, ChoicesOf(r.nightActions), p);
    MissingActs(r, p);
    ActorIsAPlayer(r.players, p);
    assert p in MissingActors(r);
  }

  lemma NightIsOpen(r: Room)
    requires Inv(r) && r.phase == Night
    ensures !AllNightActionsSubmitted(r.players, r.nightActions)
  {
    hide GameCore, ClockOk, SettingsOk, CapacityOk, ActionsOk, Balanced, AllNightActionsSubmitted;
  }

  lemma NobodyAdded(choices: Choices, ids: seq<Id>, k: nat)
    requires k < |ids|
    ensures WithNobody(choices, ids[..k])[ids[k] := NO_ID] == WithNobody(choices, ids[..k + 1])
    ensures WithNobody(choices, ids[..0]) == choices
  {
    assert ids[..k + 1] == ids[..k] + [ids[k]];
  }

  // Who of them is still missing once some have passed.
  lemma StillMissing(r: Room, missing: seq<Id>, k: nat)
    requires AreThe(missing, MissingActors(r)) && k <= |missing|
    ensures forall p :: IsMissing(r.players, WithNobody(ChoicesOf(r.nightActions), missing[..k]), p) <==> p in missing[k..]
  {
    var choices := WithNobody(ChoicesOf(r.nightActions), missing[..k]);
    assert missing == missing[..k] + missing[k..];
    forall p ensures IsMissing(r.players, choices, p) <==> p in missing[k..] {
      if p in missing {
        assert p in MissingActors(r);
        var i :| 0 <= i < |missing| && missing[i] == p;
        if i < k {
          assert missing[..k][i] == p;
          assert forall j :: k <= j < |missing| ==> missing[j] != p;
          assert p !in missing[k..];
        } else {
          assert missing[k..][i - k] == p;
          assert forall j :: 0 <= j < k ==> missing[j] != p;
          assert p !in missing[..k];
        }
      } else {
        assert p !in MissingActors(r);
      }
    }
  }

  lemma {:induction false} PassesReach(r: Room, missing: seq<Id>, k: nat, at: int)
    requires Inv(r) && r.phase == Night && AreThe(missing, MissingActors(r)) && k <= |missing|
    ensures var s := Run(r, Each(missing, NightPass, at)[..k]);
      && Inv(s)
      && if k < |missing| then IsWaitingStill(r, s, missing[..k])
         else missing != [] ==> IsMorningAfter(r, WithNobody(ChoicesOf(r.nightActions), missing), s)
    decreases k
  {
    hide Inv, AreThe, IsMissing, MissingActors, IsMorningAfter, ChoicesOf, WithNobody, After;
    var inputs := Each(missing, NightPass, at);
    RunKeepsInv(r, inputs[..k]);
    if k == 0 {
      assert inputs[..0] == [];
      NoneMissingYet(r, missing);
    } else {
      PassesReach(r, missing, k - 1, at);
      var s, p := Run(r, inputs[..k - 1]), missing[k - 1];
      RunStep(r, inputs, k - 1);
      StillMissing(r, missing, k - 1);
      StillMissing(r, missing, k);
      assert p == missing[k - 1..][0] && inputs[k - 1] == Each([p], NightPass, at)[0];
      OnePasses(s, p, at);
      NobodyAdded(ChoicesOf(r.nightActions), missing, k - 1);
      var choices, t := WithNobody(ChoicesOf(r.nightActions), missing[..k]), Run(r, inputs[..k]);
      assert t == After(s, inputs[k - 1]) && ChoicesOf(s.nightActions)[p := NO_ID] == choices;
      if k < |missing| {
        assert missing[k] == missing[k..][0];
        assert IsMissing(s.players, choices, missing[k]);
        assert IsWaitingStill(r, t, missing[..k]);
      } else {
        assert missing[k..] == [];
        assert IsMorningAfter(s, choices, t);
      }
      assert missing[..|missing|] == missing;
      SameMorning(r, s, WithNobody(ChoicesOf(r.nightActions), missing[..k]), Run(r, inputs[..k]));
    }
  }

  lemma NoneMissingYet(r: Room, missing: seq<Id>)
    ensures IsWaitingStill(r, r, missing[..0])
  {
    assert WithNobody(ChoicesOf(r.nightActions), missing[..0]) == ChoicesOf(r.nightActions);
  }

  lemma SameMorning(r: Room, s: Room, choices: Choices, t: Room)
    requires s.players == r.players && s.investigations == r.investigations && s.round == r.round
    ensures IsMorningAfter(s, choices, t) ==> IsMorningAfter(r, choices, t)
  {
    hide IsSought, IsWatchedOver, IsOver, FindingsOf;
    assert forall d :: Learned(r, choices, d) == Learned(s, choices, d);
    hide Learned;
  }

  lemma FilledIsWithNobody(r: Room, missing: seq<Id>)
    requires AreThe(missing, MissingActors(r))
    ensures Filled(r.players, ChoicesOf(r.nightActions)) == WithNobody(ChoicesOf(r.nightActions), missing)
    ensures forall p :: !IsMissing(r.players, Filled(r.players, ChoicesOf(r.nightActions)), p)
  {
    forall p | p in missing ensures IsMissing(r.players, ChoicesOf(r.nightActions), p) {
      assert p in MissingActors(r);
    }
    forall p | IsMissing(r.players, ChoicesOf(r.nightActions), p) ensures p in r.players && p in missing {
      MissingActs(r, p);
      ActorIsAPlayer(r.players, p);
      assert p in MissingActors(r);
    }
    hide ActsAtNight;
  }

  lemma MorningsAgree(r: Room, choices: Choices, s: Room, t: Room)
    requires IsMorningAfter(r, choices, s) && IsMorningAfter(r, choices, t)
    requires SameRoles(r.players, s.players) && SameRoles(r.players, t.players)
    ensures SameEnd(s, t)
  {
    hide IsSought, IsWatchedOver, FindingsOf, Learned;
    SameLivesSameEnd(s.players, t.players);
    hide IsOver;
  }

  lemma NightKeepsRoles(r: Room, inputs: seq<Input>)
    requires Inv(r) && IsActive(r.phase) && ActiveThroughout(r, inputs) && Run(r, inputs).phase != Waiting
    ensures SameRoles(r.players, Run(r, inputs).players)
  {
    GameIsOneStory(r, inputs);
    hide Inv, Run, ActiveThroughout;
  }

  lemma DeadlineIsMorning(r: Room, missing: seq<Id>, at: int)
    requires Inv(r) && r.phase == Night && AreThe(missing, MissingActors(r)) && AcceptsDeadline(r, at)
    ensures IsMorningAfter(r, WithNobody(ChoicesOf(r.nightActions), missing), After(r, Deadline(at)))
  {
    hide Inv, Step, IsMorningAfter, AreThe, MissingActors, IsMissing, ChoicesOf, WithNobody, Filled;
    NightCountsChoices(r, Deadline(at).event, Deadline(at).entropy);
    FilledIsWithNobody(r, missing);
  }

  ghost predicate AcceptsDeadline(r: Room, at: int) {
    Step(r, Deadline(at).event, Deadline(at).entropy).Accepted?
  }

  lemma PassesStayInGame(r: Room, missing: seq<Id>, at: int)
    requires Inv(r) && r.phase == Night && AreThe(missing, MissingActors(r))
    ensures ActiveThroughout(r, Each(missing, NightPass, at))
  {
    hide Inv, AreThe, MissingActors, Run, IsMorningAfter;
    forall k | 0 <= k < |missing| ensures IsActive(Run(r, Each(missing, NightPass, at)[..k]).phase) {
      PassesReach(r, missing, k, at);
    }
  }

  // The night's deadline does what the missing passing would, in whatever order, whatever the others chose.
  lemma NightDeadlineIsPassing(r: Room, missing: seq<Id>, at: int)
    requires Inv(r) && r.phase == Night && AreThe(missing, MissingActors(r)) && AcceptsDeadline(r, at)
    ensures SameEnd(Run(r, Each(missing, NightPass, at)), After(r, Deadline(at)))
  {
    hide Inv, Step, Run, After, IsMorningAfter, MissingActors, AcceptsDeadline, SameEnd, ActiveThroughout, ChoicesOf, WithNobody;
    var inputs, choices := Each(missing, NightPass, at), WithNobody(ChoicesOf(r.nightActions), missing);
    NightWaits(r);
    SomebodyIsMissing(missing, MissingActors(r));
    hide AreThe;
    assert inputs[..|missing|] == inputs;
    PassesReach(r, missing, |missing|, at);
    DeadlineIsMorning(r, missing, at);
    PassesStayInGame(r, missing, at);
    MorningIsInGame(r, choices, Run(r, inputs));
    MorningIsInGame(r, choices, After(r, Deadline(at)));
    NightKeepsRoles(r, inputs);
    DeadlineKeepsRoles(r, at);
    MorningsAgree(r, choices, Run(r, inputs), After(r, Deadline(at)));
  }

  lemma SomebodyIsMissing(missing: seq<Id>, wanted: set<Id>)
    requires AreThe(missing, wanted) && wanted != {}
    ensures missing != []
  {
    var p :| p in wanted;
    assert p in missing;
  }

  lemma MorningIsInGame(r: Room, choices: Choices, s: Room)
    requires IsMorningAfter(r, choices, s)
    ensures s.phase != Waiting
  {
  }

  lemma DeadlineKeepsRoles(r: Room, at: int)
    requires Inv(r) && IsActive(r.phase) && After(r, Deadline(at)).phase != Waiting
    ensures SameRoles(r.players, After(r, Deadline(at)).players)
  {
    hide Inv, After;
    assert [Deadline(at)][..0] == [] && Run(r, [Deadline(at)]) == After(r, Deadline(at));
    NightKeepsRoles(r, [Deadline(at)]);
  }

  // ---- A vote -----------------------------------------------------------------------------------

  function MissingVoters(r: Room): set<Id> {
    Living(r.players) - r.votes.Keys
  }

  function WithAbstaining(votes: Votes, ids: seq<Id>): Votes {
    map p | p in votes.Keys + (set q | q in ids) :: if p in ids then NO_ID else votes[p]
  }

  // The room while some of the missing have abstained.
  ghost predicate IsOpenStill(r: Room, s: Room, abstained: seq<Id>) {
    s == r.(votes := WithAbstaining(r.votes, abstained), updatedAt := s.updatedAt)
  }

  lemma OneAbstains(s: Room, p: Id, at: int)
    requires Inv(s) && s.phase == DayVoting && IsLiving(s.players, p)
    ensures var t, votes := After(s, Each([p], Vote(NO_ID), at)[0]), s.votes[p := NO_ID];
      if Living(s.players) <= votes.Keys then IsVerdict(s, votes, t) else t == s.(votes := votes, updatedAt := at)
  {
    hide Inv, VoteResolved, IsVerdict, Living;
    var e := Event(p, 0, Vote(NO_ID), at);
    BallotIsAcceptedExactly(s, e, Entropy(NO_TOKEN, []));
    VoteCountsBallots(s, e, Entropy(NO_TOKEN, []));
    OnlyAfterVote(s, p, at);
    hide Step;
  }

  lemma OnlyAfterVote(s: Room, p: Id, at: int)
    ensures Step(s, Event(p, 0, Vote(NO_ID), at), Entropy(NO_TOKEN, [])) == AfterVote(s, p, NO_ID, at)
  {
    hide AfterVote, AfterJoin, AfterLeave, AfterDisconnect, AfterReady, AfterStartGame, AfterChat, AfterNightAction, AfterNightPass, AfterStartVote,
      AfterTransferOwner, AfterKick, AfterSetPlayerLimit, AfterSetGameSettings, AfterSetGamePreset, AfterPresence, AfterReturnToWaiting, AfterPhaseTimeout;
  }

  lemma NobodyAddedToo(votes: Votes, ids: seq<Id>, k: nat)
    requires k < |ids|
    ensures WithAbstaining(votes, ids[..k])[ids[k] := NO_ID] == WithAbstaining(votes, ids[..k + 1])
    ensures WithAbstaining(votes, ids[..0]) == votes
  {
    assert ids[..k + 1] == ids[..k] + [ids[k]];
  }

  lemma StillSilent(r: Room, missing: seq<Id>, k: nat)
    requires AreThe(missing, MissingVoters(r)) && k <= |missing|
    ensures Living(r.players) <= WithAbstaining(r.votes, missing[..k]).Keys <==> k == |missing|
    ensures k < |missing| ==> IsLiving(r.players, missing[k])
  {
    if k < |missing| {
      assert missing[k] in missing;
      assert forall j :: 0 <= j < k ==> missing[j] != missing[k];
      assert missing[k] !in missing[..k];
      assert missing[k] in Living(r.players) && missing[k] !in r.votes;
    } else {
      assert missing[..k] == missing;
      forall p | p in Living(r.players) ensures p in WithAbstaining(r.votes, missing) {
        assert p !in r.votes ==> p in MissingVoters(r);
      }
    }
  }

  lemma {:induction false} AbstentionsReach(r: Room, missing: seq<Id>, k: nat, at: int)
    requires Inv(r) && r.phase == DayVoting && AreThe(missing, MissingVoters(r)) && k <= |missing|
    ensures var s := Run(r, Each(missing, Vote(NO_ID), at)[..k]);
      && Inv(s)
      && if k < |missing| then IsOpenStill(r, s, missing[..k])
         else missing != [] ==> IsVerdict(r, WithAbstaining(r.votes, missing), s)
    decreases k
  {
    hide Inv, AreThe, MissingVoters, IsVerdict, WithAbstaining, After, Living;
    var inputs := Each(missing, Vote(NO_ID), at);
    RunKeepsInv(r, inputs[..k]);
    if k == 0 {
      assert inputs[..0] == [];
      NoneAbstainedYet(r, missing);
    } else {
      AbstentionsReach(r, missing, k - 1, at);
      var s, p := Run(r, inputs[..k - 1]), missing[k - 1];
      RunStep(r, inputs, k - 1);
      StillSilent(r, missing, k - 1);
      StillSilent(r, missing, k);
      assert inputs[k - 1] == Each([p], Vote(NO_ID), at)[0];
      OneAbstains(s, p, at);
      NobodyAddedToo(r.votes, missing, k - 1);
      assert missing[..|missing|] == missing;
      SameVerdict(r, s, WithAbstaining(r.votes, missing[..k]), Run(r, inputs[..k]));
    }
  }

  lemma NoneAbstainedYet(r: Room, missing: seq<Id>)
    ensures IsOpenStill(r, r, missing[..0])
  {
    assert WithAbstaining(r.votes, missing[..0]) == r.votes;
  }

  lemma SameVerdict(r: Room, s: Room, votes: Votes, t: Room)
    requires s.players == r.players && s.investigations == r.investigations
    ensures IsVerdict(s, votes, t) ==> IsVerdict(r, votes, t)
  {
    hide IsChosen, IsOver;
  }

  lemma AbstainingFills(r: Room, missing: seq<Id>, e: Event)
    requires AreThe(missing, MissingVoters(r)) && e.kind.PhaseTimeout?
    ensures BallotsAfter(r, e) == WithAbstaining(r.votes, missing) && Living(r.players) <= BallotsAfter(r, e).Keys
  {
    assert forall p :: p in missing <==> p in MissingVoters(r);
  }

  lemma DeadlineIsVerdict(r: Room, missing: seq<Id>, at: int)
    requires Inv(r) && r.phase == DayVoting && AreThe(missing, MissingVoters(r)) && AcceptsDeadline(r, at)
    ensures IsVerdict(r, WithAbstaining(r.votes, missing), After(r, Deadline(at)))
  {
    hide Inv, Step, IsVerdict, AreThe, MissingVoters, WithAbstaining, Living, BallotsAfter;
    VoteCountsBallots(r, Deadline(at).event, Deadline(at).entropy);
    AbstainingFills(r, missing, Deadline(at).event);
  }

  lemma VerdictsAgree(r: Room, votes: Votes, s: Room, t: Room)
    requires IsVerdict(r, votes, s) && IsVerdict(r, votes, t)
    ensures SameEnd(s, t)
  {
    hide FindingsOf, IsOver;
    if s.phase == LastWords {
      assert IsChosen(r.players, votes, s.lastWords);
    }
    if t.phase == LastWords {
      assert IsChosen(r.players, votes, t.lastWords);
    }
    hide IsChosen;
  }

  lemma VoteWaits(r: Room)
    requires Inv(r) && r.phase == DayVoting
    ensures MissingVoters(r) != {}
  {
    hide Inv, Living;
    VoteIsOpen(r);
    var p :| p in Living(r.players) && p !in r.votes;
    assert p in MissingVoters(r);
  }

  lemma VoteIsOpen(r: Room)
    requires Inv(r) && r.phase == DayVoting
    ensures !AllLivingVoted(r.players, r.votes)
  {
    hide GameCore, ClockOk, SettingsOk, CapacityOk, ActionsOk, Balanced, AllLivingVoted;
  }

  // A vote's deadline does what the missing abstaining would, in whatever order, whatever the others voted.
  lemma VoteDeadlineIsAbstaining(r: Room, missing: seq<Id>, at: int)
    requires Inv(r) && r.phase == DayVoting && AreThe(missing, MissingVoters(r)) && AcceptsDeadline(r, at)
    ensures SameEnd(Run(r, Each(missing, Vote(NO_ID), at)), After(r, Deadline(at)))
  {
    hide Inv, Step, Run, After, IsVerdict, MissingVoters, AcceptsDeadline, SameEnd, WithAbstaining;
    var inputs := Each(missing, Vote(NO_ID), at);
    VoteWaits(r);
    SomebodyIsMissing(missing, MissingVoters(r));
    hide AreThe;
    assert inputs[..|missing|] == inputs;
    AbstentionsReach(r, missing, |missing|, at);
    DeadlineIsVerdict(r, missing, at);
    VerdictsAgree(r, WithAbstaining(r.votes, missing), Run(r, inputs), After(r, Deadline(at)));
  }

  // In particular an expired vote executes whoever more of the living named than anyone else, of the ballots
  // cast before.
  lemma ExpiredVoteExecutes(r: Room, at: int)
    requires Inv(r) && r.phase == DayVoting && AcceptsDeadline(r, at)
    ensures IsVerdict(r, r.votes, After(r, Deadline(at)))
  {
    hide Inv, Step, IsChosen, BallotsAfter, Living;
    var e := Deadline(at).event;
    VoteCountsBallots(r, e, Deadline(at).entropy);
    EveryoneIsIn(r, e);
    AbstentionsNameNobody(r, e);
  }

  lemma EveryoneIsIn(r: Room, e: Event)
    requires e.kind.PhaseTimeout?
    ensures Living(r.players) <= BallotsAfter(r, e).Keys
  {
  }

  lemma AbstentionsNameNobody(r: Room, e: Event)
    requires e.kind.PhaseTimeout?
    ensures forall t :: IsChosen(r.players, BallotsAfter(r, e), t) <==> IsChosen(r.players, r.votes, t)
  {
    var votes := BallotsAfter(r, e);
    forall t | t != NO_ID ensures Naming(r.players, votes, t) == Naming(r.players, r.votes, t) {
    }
    hide Naming, BallotsAfter;
  }
}
