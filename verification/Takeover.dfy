// A page that reconnects before its old connection is gone (internal/ws/handler.go joins the room first
// and subscribes afterwards; the old connection unsubscribes when its reader ends). If the old
// connection goes in between, and nothing else does, its departure is taken for the participant's.

module Takeover {
  import opened Rules
  import opened Settings
  import opened RoomModel
  import opened RoomInvariant
  import opened RoomSteps
  import opened Seats
  import opened RoomState
  import opened Streams
  import opened Actor
  import opened RoomRuns
  import opened Ownership
  import opened Attendance

  // A game whose owner is the only one who may be connected.
  predicate IsAlone(r: Room, p: Id, last: nat) {
    && p in r.players && r.players[p].lastSequence == last
    && r.owner == p && r.phase != Waiting && Connected(r.players) <= {p}
  }

  // ---- One event ------------------------------------------------------------------------------

  lemma DisconnectLeavesAway(r: Room, p: Id, now: int)
    requires IsSeated(r, p) && r.players.Keys !! r.spectators.Keys
    ensures var outcome := Step(r, Departure(p, false, now), NO_ENTROPY);
      outcome.Accepted? && outcome.room == AfterDrop(r, Drop(p, now)) && IsAway(outcome.room, p)
  {
    UnsequencedDisconnect(r, p, now);
    DisconnectingDrops(r, Drop(p, now));
    hide Step;
  }

  lemma JoinKeepsAlone(r: Room, e: Event, entropy: Entropy, last: nat)
    requires IsAlone(r, e.player, last) && e.kind.Join? && e.sequence == 0 && Step(r, e, entropy).Accepted?
    ensures IsAlone(Step(r, e, entropy).room, e.player, last)
  {
    hide Least;
  }

  // With nobody else connected there is no successor.
  lemma NoSuccessor(r: Room, p: Id)
    requires p in r.players && r.owner == p && Connected(r.players) <= {p}
    ensures var s := PlayerDropped(r, p);
      s == r.(players := s.players) && s.players == r.players[p := r.players[p].(connected := false, afk := false)] && Connected(s.players) == {}
  {
    hide Least;
    assert forall q :: q in r.players && r.players[q].connected ==> q in Connected(r.players);
    assert Connected(r.players[p := r.players[p].(connected := false, afk := false)]) == {};
  }

  lemma DropKeepsAlone(r: Room, d: Drop, p: Id, last: nat)
    requires IsAlone(r, p, last)
    ensures IsAlone(AfterDrop(r, d), p, last)
  {
    hide ConnectedOwner;
    if p == d.player {
      NoSuccessor(r, p);
      hide PlayerDropped;
    }
  }

  lemma {:induction false} DropsKeepAlone(r: Room, drops: seq<Drop>, p: Id, last: nat)
    requires IsAlone(r, p, last)
    ensures IsAlone(AfterDrops(r, drops), p, last)
  {
    hide IsAlone, AfterDrop;
    if drops != [] {
      DropsKeepAlone(r, drops[..|drops| - 1], p, last);
      DropKeepsAlone(AfterDrops(r, drops[..|drops| - 1]), drops[|drops| - 1], p, last);
    }
  }

  lemma ReturnRemovesAll(r: Room, e: Event, last: nat)
    requires IsAlone(r, e.player, last) && IsAway(r, e.player) && e.kind.ReturnToWaiting? && (e.sequence == 0 || e.sequence > last)
    ensures var outcome := Step(r, e, NO_ENTROPY);
      outcome.Accepted? && outcome.room.players == map[] && outcome.room.owner == e.player
  {
    hide Least;
    assert Connected(r.players) == {};
    assert SeatsReset(r.players).Keys == {};
    assert SeatsReset(r.players) == map[];
  }

  lemma AbandonedStays(r: Room, drops: seq<Drop>)
    requires r.players.Keys !! r.spectators.Keys && r.players == map[]
    ensures AfterDrops(r, drops).players == map[] && AfterDrops(r, drops).owner == r.owner
    decreases |drops|
  {
    if drops != [] {
      var s := AfterDrops(r, drops[..|drops| - 1]);
      AbandonedStays(r, drops[..|drops| - 1]);
    }
  }

  // ---- The commands ---------------------------------------------------------------------------

  lemma GoneIfLost(before: Channels, after: Channels, id: SubId, drops: seq<Drop>)
    requires id in before.subscribers && id !in after.subscribers && DropsAre(drops, Lost(before.subscribers, after.subscribers))
    ensures before.subscribers[id] in PlayersOf(drops)
  {
    var p := before.subscribers[id];
    assert p in Lost(before.subscribers, after.subscribers);
    var i :| 0 <= i < |drops| && drops[i].player == p;
    assert drops[i] in drops;
  }

  // The older connection unsubscribes, if it still can.
  method Depart(a: Actor, p: Id, older: SubId, now: int) returns (ghost drops: seq<Drop>)
    requires a.Valid() && IsSeated(a.state.View(), p)
    requires if older in a.subscribers then a.subscribers[older] == p else IsAway(a.state.View(), p)
    modifies a, a.state
    ensures a.Valid() && IsAway(a.state.View(), p)
    ensures a.state.View() == AfterDrops(old(a.state.View()), drops) && a.queues.Keys == old(a.queues).Keys
  {
    hide Inv, Step, ChannelsOk, OneEach, AllServed, AfterDrop, AfterDrops, News, DropsAre, IsAway, IsSeated, Lost, Remains, ClosedKept, AllEnded;
    ghost var room, left, had := a.state.View(), older in a.subscribers, a.posted;
    SeatsAreApart(room);
    ghost var before := a.Wires();
    drops := a.Unsubscribe(older, false, now);
    if left {
      var drop := Drop(p, now);
      DisconnectLeavesAway(room, p, now);
      ServedRemain(GivenUp(before, older), a.Wires(), a.posted[|had|..]);
      SeatsAreApart(a.state.View());
      OneDrop(room, drop);
      DropsJoin(room, [drop], drops);
      DropsFollow(room, [drop] + drops, p);
      assert drop in [drop] + drops;
      drops := [drop] + drops;
    } else {
      NothingHappened(room);
      drops := [];
    }
  }

  // Whatever the room and whoever else is subscribed: when these three commands follow each other (the newer
  // connection joins, the older one unsubscribes, the newer one subscribes), the participant ends up
  // subscribed and shown as not connected.
  method TakeOver(a: Actor, older: SubId, newer: SubId, join: Event, entropy: Entropy, now: int) returns (ghost drops: seq<Drop>)
    requires a.Valid() && older in a.subscribers && a.subscribers[older] == join.player && newer !in a.queues
    requires join.kind.Join? && Step(a.state.View(), join, entropy).Accepted?
    modifies a, a.state
    ensures a.Valid() && newer in a.subscribers && a.subscribers[newer] == join.player
    ensures IsAway(a.state.View(), join.player)
    ensures a.state.View() == AfterDrops(Step(old(a.state.View()), join, entropy).room, drops)
  {
    hide Inv, Step, ChannelsOk, OneEach, AllServed, AfterDrop, AfterDrops, News, DropsAre, IsAway, IsSeated, Lost, Remains, ClosedKept, AllEnded;
    var p := join.player;
    ghost var r, before, had := Step(a.state.View(), join, entropy).room, a.Wires(), a.posted;
    AwayExactly(a.state.View(), join, entropy, p);
    StepKeepsInv(a.state.View(), join, entropy);
    SeatsAreApart(r);
    var reply;
    reply, drops := a.DispatchFrom(None, join, entropy);
    DropsFollow(r, drops, p);
    ServedRemain(before, a.Wires(), a.posted[|had|..]);
    if older !in a.subscribers {
      GoneIfLost(before, a.Wires(), older, drops);
    }
    ghost var more := Depart(a, p, older, now);
    DropsJoin(r, drops, more);
    drops := drops + more;
    a.Subscribe(p, newer);
  }

  // So an owner whose page is connected can lose the room: reconnecting like this with nobody else
  // connected, and then returning it to waiting, removes every seat and leaves the owner's id in place.
  method ConnectedOwnerIsLost(a: Actor, older: SubId, newer: SubId, join: Event, entropy: Entropy, now: int, back: Event)
    requires a.Valid() && older in a.subscribers && a.subscribers[older] == join.player && newer !in a.queues
    requires join.kind.Join? && join.sequence == 0 && Step(a.state.View(), join, entropy).Accepted?
    requires join.player in a.state.players && IsAlone(a.state.View(), join.player, a.state.players[join.player].lastSequence)
    requires back.kind.ReturnToWaiting? && back.player == join.player && back.sequence > a.state.players[join.player].lastSequence
    modifies a, a.state
    ensures a.Valid() && a.state.players == map[] && a.state.owner == join.player
  {
    hide Inv, Step, ChannelsOk, OneEach, AllServed, AfterDrop, AfterDrops, News, DropsAre, IsAway, IsSeated, Lost, Remains, ClosedKept, AllEnded, IsAlone;
    ghost var last, room := a.state.players[join.player].lastSequence, a.state.View();
    JoinKeepsAlone(room, join, entropy, last);
    ghost var drops := TakeOver(a, older, newer, join, entropy, now);
    DropsKeepAlone(Step(room, join, entropy).room, drops, join.player, last);
    ReturnRemovesAll(a.state.View(), back, last);
    StepKeepsInv(a.state.View(), back, NO_ENTROPY);
    ghost var empty := Step(a.state.View(), back, NO_ENTROPY).room;
    SeatsAreApart(empty);
    var reply;
    reply, drops := a.DispatchFrom(Some(newer), back, NO_ENTROPY);
    AbandonedStays(empty, drops);
  }

  // ---- Both happen ----------------------------------------------------------------------------

  lemma NobodyLost(drops: seq<Drop>, before: map<SubId, Id>, after: map<SubId, Id>)
    requires before == map[] && DropsAre(drops, Lost(before, after))
    ensures drops == []
  {
    hide DropsAre;
    if drops != [] {
      SomebodyLost(drops, Lost(before, after));
    }
  }

  lemma SomebodyLost(drops: seq<Drop>, lost: set<Id>)
    requires DropsAre(drops, lost) && drops != []
    ensures lost != {}
  {
    assert drops[0].player in lost;
  }

  // With nobody subscribed an event does to the room what it does, and no more.
  method Play(a: Actor, input: Input)
    requires a.Valid() && a.subscribers == map[] && !input.event.kind.KickParticipant?
    modifies a, a.state
    ensures a.Valid() && a.subscribers == map[] && a.queues.Keys == old(a.queues).Keys
    ensures a.state.View() == After(old(a.state.View()), input)
  {
    hide Inv, Reachable, Step, ChannelsOk, OneEach, AllServed, News, DropsAre, Lost, AfterDrops, ClosedKept;
    ghost var before, had, room := a.Wires(), a.posted, After(a.state.View(), input);
    var reply;
    ghost var drops;
    reply, drops := a.DispatchFrom(None, input.event, input.entropy);
    if Step(old(a.state.View()), input.event, input.entropy).Accepted? {
      ServedRemain(before, a.Wires(), a.posted[|had|..]);
      NobodyLost(drops, before.subscribers, a.subscribers);
      NothingHappened(room);
    }
  }

  const OLDER := SubId(1)
  const NEWER := SubId(2)

  lemma AnnOpens(r: Room)
    requires r == NewRoom(BRIEF, 1, 0)
    ensures var s := After(r, Says(ANN, Join("ann", 0, false)));
      && ANN in s.players && s.players[ANN].token == 7 && s.players[ANN].lastSequence == 0
  {
    hide ConnectedOwner;
  }

  lemma AnnMayRejoin(r: Room)
    requires ANN in r.players && r.players[ANN].token == 7
    ensures Step(r, Says(ANN, Join("ann", 7, false)).event, NO_ENTROPY).Accepted?
  {
    hide Rejoined;
  }

  // Ann, alone in a new room, opens a second page.
  method SubscribedAndAway() returns (a: Actor)
    ensures fresh(a) && a.Valid() && NEWER in a.subscribers && a.subscribers[NEWER] == ANN && IsAway(a.state.View(), ANN)
  {
    hide Inv, Reachable, Step, ChannelsOk, OneEach, IsAway, AfterDrops, NewRoom, After, AllEnded;
    a := new Actor(BRIEF, 1, 0);
    AnnOpens(a.state.View());
    Play(a, Says(ANN, Join("ann", 0, false)));
    AnnMayRejoin(a.state.View());
    EndingMakesNoChannel(a.Wires(), SubscriptionsOf(a.subscribers, ANN), Replaced);
    a.Subscribe(ANN, OLDER);
    ghost var drops := TakeOver(a, OLDER, NEWER, Says(ANN, Join("ann", 7, false)).event, NO_ENTROPY, 0);
  }

  lemma AnnIsAlone(r: Room)
    requires BothSeated(r, Night, true, true)
    ensures var s := After(r, Says(BOB, Disconnect));
      IsAlone(s, ANN, 0) && s.players[ANN].token == 7
  {
    hide Least;
  }

  // Ann and Bob start a game, Bob's connection is lost, and Ann opens a second page and returns to waiting.
  method OwnerIsLost() returns (a: Actor)
    ensures fresh(a) && a.Valid() && a.state.players == map[] && a.state.owner == ANN
  {
    hide Inv, Reachable, Step, ChannelsOk, OneEach, IsAway, AfterDrops, NewRoom, After, AllEnded, BothSeated, IsAlone;
    a := new Actor(BRIEF, 1, 0);
    BothJoin(a.state.View());
    Play(a, Says(ANN, Join("ann", 0, false)));
    Play(a, Says(BOB, Join("bob", 0, false)));
    BobIsReady(a.state.View());
    Play(a, Says(BOB, Ready(true)));
    GameStarts(a.state.View());
    Play(a, Says(ANN, StartGame));
    AnnIsAlone(a.state.View());
    Play(a, Says(BOB, Disconnect));
    AnnIsSeated(a.state.View());
    AnnMayRejoin(a.state.View());
    EndingMakesNoChannel(a.Wires(), SubscriptionsOf(a.subscribers, ANN), Replaced);
    a.Subscribe(ANN, OLDER);
    ConnectedOwnerIsLost(a, OLDER, NEWER, Says(ANN, Join("ann", 7, false)).event, NO_ENTROPY, 0, Event(ANN, 1, ReturnToWaiting, 0));
  }

  lemma AnnIsSeated(r: Room)
    requires IsAlone(r, ANN, 0)
    ensures ANN in r.players && r.players[ANN].lastSequence == 0
  {
  }
}
