// Who is subscribed, over any run of the actor's commands, and why a subscription ends
// (internal/room/actor.go).

module Subscriptions {
  import opened Rules
  import opened RoomModel
  import opened RoomInvariant
  import opened RoomSteps
  import opened Seats
  import opened Views
  import opened Streams
  import opened Actor
  import opened Attendance

  ghost predicate KicksOut(cmd: Command, before: Scene, p: Id) {
    cmd.Dispatch? && OutcomeOf(cmd, before).Accepted? && cmd.event.kind == KickParticipant(p)
  }

  predicate Quits(cmd: Command, id: SubId) {
    cmd.Quit? && cmd.id == id
  }

  predicate Replaces(cmd: Command, p: Id) {
    cmd.Enter? && cmd.player == p
  }

  // Somebody still in their seat who could not keep up.
  ghost predicate FellBehind(cmd: Command, before: Scene, after: Scene, p: Id) {
    && OutcomeOf(cmd, before).Accepted? && IsSeated(OutcomeOf(cmd, before).room, p) && !KicksOut(cmd, before, p)
    && exists id :: id in before.channels.subscribers && before.channels.subscribers[id] == p && !Quits(cmd, id) && id !in after.channels.subscribers
  }

  ghost function Missed(cmd: Command, before: Scene, after: Scene): set<Id> {
    set p | p in before.channels.subscribers.Values && FellBehind(cmd, before, after, p)
  }

  // The queue cannot take the posting of the event and one more for each of those who fall behind.
  ghost predicate HasNoRoom(cmd: Command, before: Scene, after: Scene, id: SubId) {
    && OutcomeOf(cmd, before).Accepted? && id in before.channels.queues
    && |before.channels.queues[id]| + 1 + |Missed(cmd, before, after)| > QUEUE_CAPACITY
  }

  // What ends a participant's subscription: a newer one, being kicked, giving it up, or not keeping up.
  ghost predicate Ends(cmd: Command, before: Scene, after: Scene, p: Id, id: SubId) {
    Replaces(cmd, p) || KicksOut(cmd, before, p) || Quits(cmd, id) || HasNoRoom(cmd, before, after, id)
  }

  // ---- How much is told ---------------------------------------------------------------------------

  ghost function SeatedAmong(r: Room, drops: seq<Drop>): set<Id> {
    set p | p in PlayersOf(drops) && IsSeated(r, p)
  }

  lemma DropKeepsSeats(r: Room, drops: seq<Drop>, p: Id)
    requires r.players.Keys !! r.spectators.Keys
    ensures IsSeated(AfterDrops(r, drops), p) <==> IsSeated(r, p)
  {
    DropsDisconnectExactly(r, drops);
    hide AfterDrops;
  }

  ghost predicate NoTwice(drops: seq<Drop>) {
    forall i, j :: 0 <= i < j < |drops| ==> drops[i].player != drops[j].player
  }

  lemma OneMoreSeated(r: Room, drops: seq<Drop>)
    requires drops != [] && NoTwice(drops)
    ensures var init, last := drops[..|drops| - 1], drops[|drops| - 1];
      && NoTwice(init) && last.player !in SeatedAmong(r, init)
      && SeatedAmong(r, drops) == SeatedAmong(r, init) + if IsSeated(r, last.player) then {last.player} else {}
  {
    hide IsSeated;
    var init, last := drops[..|drops| - 1], drops[|drops| - 1];
    assert drops == init + [last];
    assert PlayersOf(drops) == PlayersOf(init) + {last.player};
  }

  // A posting for each seated participant dropped.
  lemma {:induction false} NewsAreAsMany(r: Room, drops: seq<Drop>)
    requires r.players.Keys !! r.spectators.Keys && NoTwice(drops)
    ensures |News(r, drops)| == |SeatedAmong(r, drops)|
  {
    hide AfterDrop, AfterDrops, IsSeated, NoTwice, SeatedAmong;
    if drops == [] {
      NobodyAmong(r);
    } else {
      var init, last := drops[..|drops| - 1], drops[|drops| - 1];
      OneMoreSeated(r, drops);
      NewsAreAsMany(r, init);
      DropKeepsSeats(r, init, last.player);
    }
  }

  lemma NobodyAmong(r: Room)
    ensures SeatedAmong(r, []) == {}
  {
  }

  // ---- One command --------------------------------------------------------------------------------

  // The subscriptions left when an accepted event has put out whom it must.
  lemma LeftBeforeTelling(cmd: Command, before: Scene, id: SubId)
    requires OutcomeOf(cmd, before).Accepted?
    ensures var b, c := before.channels, ChannelsFor(cmd, before);
      && (id in c.subscribers <==> id in b.subscribers && !Quits(cmd, id) && !KicksOut(cmd, before, b.subscribers[id]))
      && (id in c.subscribers ==> c.subscribers[id] == b.subscribers[id])
      && (id in c.subscribers && id in b.queues ==> id in c.queues && c.queues[id] == b.queues[id])
  {
    hide OutcomeOf;
    var b := before.channels;
    if cmd.Dispatch? && cmd.event.kind.KickParticipant? {
      var target := cmd.event.kind.target;
      assert id in SubscriptionsOf(b.subscribers, target) <==> id in b.subscribers && b.subscribers[id] == target;
    }
  }

  lemma EnterAlone(cmd: Command, before: Scene, after: Scene, id: SubId)
    requires cmd.Enter? && IsProper(before) && Did(cmd, before, after)
    ensures id in after.channels.subscribers <==>
      id == cmd.id || (id in before.channels.subscribers && before.channels.subscribers[id] != cmd.player)
    ensures id in after.channels.subscribers ==>
      after.channels.subscribers[id] == if id == cmd.id then cmd.player else before.channels.subscribers[id]
  {
    hide Inv, OneEach, SnapshotOf, PrivateViewOf;
  }

  lemma LostAreMissed(cmd: Command, before: Scene, after: Scene, drops: seq<Drop>)
    requires OutcomeOf(cmd, before).Accepted? && OneEach(before.channels.subscribers)
    requires PlayersOf(drops) == Lost(ChannelsFor(cmd, before).subscribers, after.channels.subscribers)
    ensures SeatedAmong(OutcomeOf(cmd, before).room, drops) == Missed(cmd, before, after)
  {
    hide OutcomeOf, ChannelsFor, IsSeated, PlayersOf, KicksOut;
    var b, c := before.channels.subscribers, ChannelsFor(cmd, before).subscribers;
    forall id ensures
      && (id in c <==> id in b && !Quits(cmd, id) && !KicksOut(cmd, before, b[id]))
      && (id in c ==> c[id] == b[id])
    {
      LeftBeforeTelling(cmd, before, id);
    }
    forall p | p in Missed(cmd, before, after) ensures p in Lost(c, after.channels.subscribers) {
      var id :| id in b && b[id] == p && !Quits(cmd, id) && id !in after.channels.subscribers;
      assert id in c;
    }
  }

  lemma OutcomeSeatsApart(cmd: Command, before: Scene)
    requires Inv(before.room) && OutcomeOf(cmd, before).Accepted?
    ensures var room := OutcomeOf(cmd, before).room; room.players.Keys !! room.spectators.Keys
  {
    hide Inv, Step, IsStale;
    var input := EventOf(cmd, before.channels).value;
    StepKeepsInv(before.room, input.event, input.entropy);
    SeatsAreApart(OutcomeOf(cmd, before).room);
  }

  lemma ToldStay(cmd: Command, before: Scene, after: Scene, id: SubId)
    requires IsProper(before) && Did(cmd, before, after) && OutcomeOf(cmd, before).Accepted?
    ensures id in after.channels.subscribers <==>
      && id in before.channels.subscribers && !Quits(cmd, id) && !KicksOut(cmd, before, before.channels.subscribers[id])
      && !HasNoRoom(cmd, before, after, id)
    ensures id in after.channels.subscribers ==> after.channels.subscribers[id] == before.channels.subscribers[id]
  {
    hide Inv, OutcomeOf, ChannelsFor, EnvelopeOf, News, AfterDrops, KicksOut, Missed, OneEach;
    var c, outcome := ChannelsFor(cmd, before), OutcomeOf(cmd, before);
    AcceptedIsTold(cmd, before, after);
    OutcomeSeatsApart(cmd, before);
    var drops, news :| IsBroadcast(c, after.channels, outcome.room, EnvelopeOf(outcome.reply, outcome.room), drops, news, after.room);
    DropsAreThose(drops, Lost(c.subscribers, after.channels.subscribers));
    LostAreMissed(cmd, before, after, drops);
    NewsAreAsMany(outcome.room, drops);
    LeftBeforeTelling(cmd, before, id);
    if id in c.subscribers {
      assert Served(c, after.channels, id, news);
    }
  }

  // A rejected event loses nobody but a subscriber who gives up.
  lemma RefusedStay(cmd: Command, before: Scene, after: Scene, id: SubId)
    requires !cmd.Enter? && !OutcomeOf(cmd, before).Accepted? && Did(cmd, before, after)
    ensures id in after.channels.subscribers <==> id in before.channels.subscribers && !Quits(cmd, id)
    ensures id in after.channels.subscribers ==> after.channels.subscribers[id] == before.channels.subscribers[id]
  {
    hide OutcomeOf, IsTold;
  }

  // After a command this subscription is this participant's exactly if the command is its beginning, or it was
  // before and nothing in the command ends it.
  lemma SubscriptionFollows(cmd: Command, before: Scene, after: Scene, p: Id, id: SubId)
    requires IsProper(before) && Did(cmd, before, after)
    ensures (id in after.channels.subscribers && after.channels.subscribers[id] == p) <==>
      cmd == Enter(p, id) || (id in before.channels.subscribers && before.channels.subscribers[id] == p && !Ends(cmd, before, after, p, id))
  {
    hide IsProper, Did, HasNoRoom, KicksOut;
    if cmd.Enter? {
      EnterAlone(cmd, before, after, id);
      EnteringIsNew(cmd, before, after);
      EnteringPutsNoQuestion(cmd, before);
      EnteringEndsOthers(cmd, before, after, p, id);
    } else if OutcomeOf(cmd, before).Accepted? {
      hide OutcomeOf;
      ToldStay(cmd, before, after, id);
    } else {
      hide OutcomeOf;
      RefusedStay(cmd, before, after, id);
      NothingTold(cmd, before, after, p, id);
    }
  }

  lemma EnteringIsNew(cmd: Command, before: Scene, after: Scene)
    requires cmd.Enter? && IsProper(before) && Did(cmd, before, after)
    ensures cmd.id !in before.channels.subscribers
  {
    hide Inv, OneEach;
  }

  lemma EnteringPutsNoQuestion(cmd: Command, before: Scene)
    requires cmd.Enter? || cmd.Read?
    ensures !OutcomeOf(cmd, before).Accepted?
  {
  }

  lemma EnteringEndsOthers(cmd: Command, before: Scene, after: Scene, p: Id, id: SubId)
    requires cmd.Enter? && !OutcomeOf(cmd, before).Accepted?
    ensures Ends(cmd, before, after, p, id) <==> cmd.player == p
  {
  }

  lemma NothingTold(cmd: Command, before: Scene, after: Scene, p: Id, id: SubId)
    requires !cmd.Enter? && !OutcomeOf(cmd, before).Accepted?
    ensures Ends(cmd, before, after, p, id) <==> Quits(cmd, id)
  {
  }

  // ---- Why it ended -------------------------------------------------------------------------------

  // The reason is the last word, and all that is left to read.
  ghost predicate IsToldOf(before: Channels, after: Channels, id: SubId, reason: Ending) {
    && id in before.sent && id in after.sent && id in after.queues
    && after.sent[id] == before.sent[id] + [EndMessage(reason)] && after.queues[id] == [EndMessage(reason)]
  }

  // No word about any ending.
  ghost predicate IsSilent(before: Channels, after: Channels, id: SubId) {
    && id in before.sent && id in after.sent && before.sent[id] <= after.sent[id]
    && forall i :: |before.sent[id]| <= i < |after.sent[id]| ==> !after.sent[id][i].EndMessage?
  }

  lemma ReplacedAreTold(cmd: Command, before: Scene, after: Scene, id: SubId)
    requires cmd.Enter? && IsProper(before) && Did(cmd, before, after)
    requires id in before.channels.subscribers && before.channels.subscribers[id] == cmd.player
    ensures IsToldOf(before.channels, after.channels, id, Replaced)
  {
    hide Inv, OneEach, SnapshotOf, PrivateViewOf;
  }

  lemma KickedAreTold(cmd: Command, before: Scene, id: SubId)
    requires IsSane(before.channels) && id in before.channels.subscribers && KicksOut(cmd, before, before.channels.subscribers[id])
    ensures var c := ChannelsFor(cmd, before); id in c.closed && IsToldOf(before.channels, c, id, Kicked)
  {
    hide OutcomeOf;
  }

  lemma QuittersAreSilent(cmd: Command, before: Scene, id: SubId)
    requires IsSane(before.channels) && id in before.channels.subscribers && Quits(cmd, id)
    ensures var c := ChannelsFor(cmd, before); id in c.closed && IsSilent(before.channels, c, id)
  {
    hide OutcomeOf;
  }

  lemma ClosedSayNoMore(b: Channels, c: Channels, after: Channels, id: SubId)
    requires ClosedKept(c, after) && id in c.closed && id in c.queues
    ensures IsSilent(b, c, id) ==> IsSilent(b, after, id)
    ensures forall reason :: IsToldOf(b, c, id, reason) ==> IsToldOf(b, after, id, reason)
  {
  }

  lemma DroppedAreSilent(c: Channels, after: Channels, id: SubId, news: seq<Posting>)
    requires Served(c, after, id, news)
    ensures IsSilent(c, after, id)
  {
  }

  lemma KnownStill(cmd: Command, before: Scene, id: SubId)
    requires id in before.channels.queues && id in before.channels.sent
    ensures var c := ChannelsFor(cmd, before); id in c.queues && id in c.sent
    ensures id in ChannelsFor(cmd, before).subscribers ==> ChannelsFor(cmd, before).sent[id] == before.channels.sent[id]
  {
    hide OutcomeOf;
  }

  lemma ToldEndings(cmd: Command, before: Scene, after: Scene, id: SubId)
    requires IsProper(before) && Did(cmd, before, after) && OutcomeOf(cmd, before).Accepted? && id in before.channels.subscribers
    ensures var p := before.channels.subscribers[id];
      if KicksOut(cmd, before, p) then IsToldOf(before.channels, after.channels, id, Kicked) else IsSilent(before.channels, after.channels, id)
  {
    hide Inv, OutcomeOf, ChannelsFor, EnvelopeOf, News, AfterDrops, KicksOut, OneEach, IsSilent, IsToldOf, Served, ClosedKept, DropsAre;
    var c, outcome := ChannelsFor(cmd, before), OutcomeOf(cmd, before);
    AcceptedIsTold(cmd, before, after);
    var drops, news :| IsBroadcast(c, after.channels, outcome.room, EnvelopeOf(outcome.reply, outcome.room), drops, news, after.room);
    KnownStill(cmd, before, id);
    if KicksOut(cmd, before, before.channels.subscribers[id]) {
      KickedAreTold(cmd, before, id);
      ClosedSayNoMore(before.channels, c, after.channels, id);
    } else if Quits(cmd, id) {
      QuittersAreSilent(cmd, before, id);
      ClosedSayNoMore(before.channels, c, after.channels, id);
    } else {
      LeftBeforeTelling(cmd, before, id);
      DroppedAreSilent(c, after.channels, id, news);
      SilentAsBefore(before.channels, c, after.channels, id);
    }
  }

  lemma SilentAsBefore(b: Channels, c: Channels, after: Channels, id: SubId)
    requires IsSilent(c, after, id) && id in b.sent && c.sent[id] == b.sent[id]
    ensures IsSilent(b, after, id)
  {
  }

  // Only who is replaced is told so, and only who is kicked; every other subscription ends, or goes on, without a
  // word of ending.
  lemma EndingsAreTrue(cmd: Command, before: Scene, after: Scene, id: SubId)
    requires IsProper(before) && Did(cmd, before, after) && id in before.channels.subscribers
    ensures var p := before.channels.subscribers[id];
      if Replaces(cmd, p) then IsToldOf(before.channels, after.channels, id, Replaced)
      else if KicksOut(cmd, before, p) then IsToldOf(before.channels, after.channels, id, Kicked)
      else IsSilent(before.channels, after.channels, id)
  {
    hide Did, Inv, OneEach, IsToldOf, IsSilent;
    if cmd.Enter? {
      EnteringPutsNoQuestion(cmd, before);
      if before.channels.subscribers[id] == cmd.player {
        ReplacedAreTold(cmd, before, after, id);
      } else {
        OthersHearNothing(cmd, before, after, id);
      }
    } else {
      hide OutcomeOf;
      if OutcomeOf(cmd, before).Accepted? {
        ToldEndings(cmd, before, after, id);
      } else {
        RefusedHearNothing(cmd, before, after, id);
      }
    }
  }

  lemma OthersHearNothing(cmd: Command, before: Scene, after: Scene, id: SubId)
    requires cmd.Enter? && IsProper(before) && Did(cmd, before, after)
    requires id in before.channels.subscribers && before.channels.subscribers[id] != cmd.player
    ensures IsSilent(before.channels, after.channels, id)
  {
    hide Inv, OneEach, SnapshotOf, PrivateViewOf;
  }

  lemma RefusedHearNothing(cmd: Command, before: Scene, after: Scene, id: SubId)
    requires !cmd.Enter? && IsSane(before.channels) && Did(cmd, before, after) && !OutcomeOf(cmd, before).Accepted?
    requires id in before.channels.subscribers
    ensures IsSilent(before.channels, after.channels, id)
  {
    hide OutcomeOf, IsTold;
  }

  // ---- Runs of commands ---------------------------------------------------------------------------

  // The subscription began with the i-th command, and nothing since has ended it.
  ghost predicate SubscribedSince(scenes: seq<Scene>, cmds: seq<Command>, p: Id, id: SubId, i: nat)
    requires i < |cmds| && |scenes| == |cmds| + 1
  {
    cmds[i] == Enter(p, id) && forall j :: i < j < |cmds| ==> !Ends(cmds[j], scenes[j], scenes[j + 1], p, id)
  }

  lemma OneMoreWhile(scenes: seq<Scene>, cmds: seq<Command>, p: Id, id: SubId, i: nat)
    requires |scenes| == |cmds| + 1 && i < |cmds| - 1
    ensures var n := |cmds| - 1;
      SubscribedSince(scenes, cmds, p, id, i) <==>
        SubscribedSince(scenes[..|cmds|], cmds[..n], p, id, i) && !Ends(cmds[n], scenes[n], scenes[n + 1], p, id)
  {
    hide Ends;
    var n := |cmds| - 1;
    var init, past := scenes[..|cmds|], cmds[..n];
    if SubscribedSince(init, past, p, id, i) && !Ends(cmds[n], scenes[n], scenes[n + 1], p, id) {
      forall j | i < j < |cmds| ensures !Ends(cmds[j], scenes[j], scenes[j + 1], p, id) {
        assert j < n ==> cmds[j] == past[j] && scenes[j] == init[j] && scenes[j + 1] == init[j + 1];
      }
    }
    if SubscribedSince(scenes, cmds, p, id, i) {
      forall j | i < j < n ensures !Ends(past[j], init[j], init[j + 1], p, id) {
        assert cmds[j] == past[j] && scenes[j] == init[j] && scenes[j + 1] == init[j + 1];
      }
    }
  }

  // Over any run of commands a subscription stands exactly if its participant entered by it, and since then was
  // not replaced, not kicked, did not give it up, and always had room for what was told.
  lemma {:induction false} SubscribedOverRuns(scenes: seq<Scene>, cmds: seq<Command>, p: Id, id: SubId)
    requires IsHistory(scenes, cmds) && id !in scenes[0].channels.subscribers
    ensures (id in scenes[|cmds|].channels.subscribers && scenes[|cmds|].channels.subscribers[id] == p) <==>
      exists i :: 0 <= i < |cmds| && SubscribedSince(scenes, cmds, p, id, i)
    decreases |cmds|
  {
    hide IsProper, Did, Ends;
    if cmds != [] {
      var n := |cmds| - 1;
      var init, past := scenes[..|cmds|], cmds[..n];
      HistoryBegins(scenes, cmds);
      SubscribedOverRuns(init, past, p, id);
      SubscriptionFollows(cmds[n], scenes[n], scenes[n + 1], p, id);
      forall i | 0 <= i < n
        ensures SubscribedSince(scenes, cmds, p, id, i) <==>
          SubscribedSince(init, past, p, id, i) && !Ends(cmds[n], scenes[n], scenes[n + 1], p, id)
      {
        OneMoreWhile(scenes, cmds, p, id, i);
      }
      assert SubscribedSince(scenes, cmds, p, id, n) <==> cmds[n] == Enter(p, id);
    }
  }

  // So what comes from a connection is put to the room only from the one its sender entered by and that nothing
  // has ended since; anything else from it changes nothing.
  lemma OnlyStandingConnectionsAct(scenes: seq<Scene>, cmds: seq<Command>, cmd: Command, after: Scene)
    requires IsHistory(scenes, cmds) && scenes[0].channels.subscribers == map[]
    requires cmd.Dispatch? && cmd.from.Some? && Did(cmd, scenes[|cmds|], after)
    ensures after == scenes[|cmds|] || exists i :: 0 <= i < |cmds| && SubscribedSince(scenes, cmds, cmd.event.player, cmd.from.value, i)
  {
    hide IsHistory, SubscribedSince, IsTold, Step;
    SubscribedOverRuns(scenes, cmds, cmd.event.player, cmd.from.value);
  }
}
