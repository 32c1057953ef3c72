// Counting a vote: every ballot counts once, and the winner is the strict plurality or nobody.

module Ballots {
  import opened Rules
  import opened RoomModel

  // The ballots for any of the targets.
  function BallotsFor(votes: Votes, targets: set<Id>): set<Id> {
    set v | v in votes && votes[v] in targets
  }

  ghost function SumOfTallies(votes: Votes, targets: set<Id>): nat {
    if targets == {} then 0 else Tally(votes, Least(targets)) + SumOfTallies(votes, targets - {Least(targets)})
  }

  lemma {:induction false} TalliesAddUp(votes: Votes, targets: set<Id>)
    ensures SumOfTallies(votes, targets) == |BallotsFor(votes, targets)|
  {
    if targets == {} {
      assert BallotsFor(votes, targets) == {};
    } else {
      var t := Least(targets);
      TalliesAddUp(votes, targets - {t});
      var mine, others := BallotsFor(votes, {t}), BallotsFor(votes, targets - {t});
      assert mine == set v | v in votes && votes[v] == t;
      assert BallotsFor(votes, targets) == mine + others && mine !! others;
    }
  }

  // When a vote is resolved the ballots are those of exactly the living, and every living player is
  // counted once: for one candidate or among the abstentions.
  lemma BallotsAreConserved(players: Players, votes: Votes)
    requires AllLivingVoted(players, votes)
    ensures var counted := PrunedVotes(votes, players);
      && counted.Keys == Living(players)
      && (forall v :: v in counted && counted[v] != NO_ID ==> IsLiving(players, counted[v]))
      && SumOfTallies(counted, counted.Values - {NO_ID}) + Tally(counted, NO_ID) == |Living(players)|
  {
    var counted := PrunedVotes(votes, players);
    assert counted.Keys == Living(players);
    assert forall v :: v in counted && counted[v] != NO_ID ==> IsLiving(players, counted[v]);
    EveryBallotCounts(counted);
    hide PrunedVotes, SumOfTallies, Tally;
  }

  lemma EveryBallotCounts(votes: Votes)
    ensures SumOfTallies(votes, votes.Values - {NO_ID}) + Tally(votes, NO_ID) == |votes.Keys|
  {
    hide SumOfTallies;
    var named := votes.Values - {NO_ID};
    TalliesAddUp(votes, named);
    var candidates, abstentions := BallotsFor(votes, named), BallotsFor(votes, {NO_ID});
    assert abstentions == set v | v in votes && votes[v] == NO_ID;
    forall v | v in votes ensures v in candidates || v in abstentions {
      assert votes[v] in votes.Values;
    }
    assert candidates + abstentions == votes.Keys && candidates !! abstentions;
  }

  // Someone not named on any ballot has no votes.
  lemma UnnamedHasNone(votes: Votes, u: Id)
    ensures Tally(votes, u) > 0 ==> exists v :: v in votes && votes[v] == u
  {
    var mine := set v | v in votes && votes[v] == u;
    if mine != {} {
      var v :| v in mine;
    }
  }

  lemma LeadersAgree(votes: Votes, t: Id, u: Id)
    requires LeadsAlone(votes, t) && LeadsAlone(votes, u)
    ensures t == u
  {
    UnnamedHasNone(votes, t);
    UnnamedHasNone(votes, u);
    hide Tally;
  }

  // A player is elected exactly when they have some votes and strictly more than every other; it
  // does not depend on any order of counting.
  lemma ElectedIsStrictPlurality(votes: Votes, t: Id)
    requires t != NO_ID
    ensures Elected(votes) == t <==>
      Tally(votes, t) > 0 && forall u :: u != t && u != NO_ID ==> Tally(votes, u) < Tally(votes, t)
  {
    if LeadsAlone(votes, t) {
      LeadersAgree(votes, t, Elected(votes));
      forall u | u != t && u != NO_ID ensures Tally(votes, u) < Tally(votes, t) {
        UnnamedHasNone(votes, u);
      }
    } else {
      assert Elected(votes) != t;
    }
  }

  // Nobody is elected exactly when no player has strictly more votes than every other.
  lemma NobodyElected(votes: Votes)
    ensures Elected(votes) == NO_ID <==> forall t :: !LeadsAlone(votes, t)
  {
    if t :| LeadsAlone(votes, t) {
      LeadersAgree(votes, t, Elected(votes));
    }
  }
}
