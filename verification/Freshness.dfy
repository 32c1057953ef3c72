// Nobody subscribed looks at a stale room: after every command, the last state sent to a subscriber shows the
// room as it is then, and every chat accepted has been sent on (internal/room/actor.go).

module Freshness {
  import opened Rules
  import opened RoomModel
  import opened RoomInvariant
  import opened Seats
  import opened Views
  import opened Streams
  import opened Actor
  import opened Attendance
  import opened Acceptance

  // The last state said on a channel.
  function LastState(sent: seq<Message>): Option<Message> {
    if sent == [] then None
    else if sent[|sent| - 1].StateMessage? then Some(sent[|sent| - 1])
    else LastState(sent[..|sent| - 1])
  }

  // This message shows this participant the room as it is, but for when it last changed: a chat changes only that.
  ghost predicate Shows(m: Message, r: Room, p: Id) {
    && m.StateMessage?
    && m.snapshot == SnapshotOf(r.(updatedAt := m.snapshot.updatedAt))
    && m.private == PrivateViewOf(r, p)
  }

  ghost predicate ShowsLast(sent: seq<Message>, r: Room, p: Id) {
    LastState(sent).Some? && Shows(LastState(sent).value, r, p)
  }

  ghost predicate IsCurrent(scene: Scene) {
    forall id :: id in scene.channels.subscribers ==>
      id in scene.channels.sent && ShowsLast(scene.channels.sent[id], scene.room, scene.channels.subscribers[id])
  }

  // ---- One channel ------------------------------------------------------------------------------

  lemma StateShows(r: Room, p: Id)
    ensures Shows(StateMessage(SnapshotOf(r), PrivateViewOf(r, p)), r, p)
  {
    assert r.(updatedAt := r.updatedAt) == r;
  }

  lemma StateIsLast(sent: seq<Message>, news: seq<Posting>, p: Id)
    requires news != [] && news[|news| - 1].envelope == StateEnvelope(SnapshotOf(news[|news| - 1].room))
    ensures ShowsLast(sent + Copies(news, p), news[|news| - 1].room, p)
  {
    hide SnapshotOf, PrivateViewOf, Shows;
    var all := sent + Copies(news, p);
    StateShows(news[|news| - 1].room, p);
    assert all[|all| - 1] == Copy(news[|news| - 1], p);
  }

  lemma ChatIsNoState(sent: seq<Message>, x: Posting, p: Id)
    requires x.envelope.ChatEnvelope?
    ensures LastState(sent + Copies([x], p)) == LastState(sent)
  {
    var all := sent + Copies([x], p);
    assert all[..|all| - 1] == sent;
  }

  // ---- What the news leave ------------------------------------------------------------------------

  ghost predicate IsSnapshotNews(news: seq<Posting>, left: Room) {
    news != [] && news[|news| - 1] == Posting(StateEnvelope(SnapshotOf(left)), left)
  }

  lemma NobodyDropped(r: Room, d: Drop)
    requires !IsSeated(r, d.player)
    ensures AfterDrop(r, d) == r
  {
  }

  // The last of the news shows the room as the disconnections leave it; without news they leave it alone.
  lemma {:induction false} NewsShowRoom(r: Room, drops: seq<Drop>)
    ensures if News(r, drops) == [] then AfterDrops(r, drops) == r else IsSnapshotNews(News(r, drops), AfterDrops(r, drops))
  {
    hide AfterDrop, SnapshotOf, IsSeated;
    if drops != [] {
      var init, last := drops[..|drops| - 1], drops[|drops| - 1];
      NewsShowRoom(r, init);
      if !IsSeated(AfterDrops(r, init), last.player) {
        NobodyDropped(AfterDrops(r, init), last);
      }
    }
  }

  lemma PostedShowsRoom(x: Posting, drops: seq<Drop>)
    requires x.envelope == StateEnvelope(SnapshotOf(x.room)) || News(x.room, drops) != []
    ensures IsSnapshotNews([x] + News(x.room, drops), AfterDrops(x.room, drops))
  {
    hide News, AfterDrops, SnapshotOf;
    NewsShowRoom(x.room, drops);
  }

  // ---- Chat changes nothing that is shown ---------------------------------------------------------

  ghost predicate SameShown(r: Room, s: Room) {
    && (forall at :: SnapshotOf(s.(updatedAt := at)) == SnapshotOf(r.(updatedAt := at)))
    && (forall p :: PrivateViewOf(s, p) == PrivateViewOf(r, p))
  }

  lemma StillShows(sent: seq<Message>, r: Room, s: Room, p: Id)
    requires ShowsLast(sent, r, p) && SameShown(r, s)
    ensures ShowsLast(sent, s, p)
  {
    hide SnapshotOf, PrivateViewOf, LastState;
  }

  ghost predicate SameButForCursors(r: Room, s: Room) {
    && s == r.(players := s.players, spectators := s.spectators, updatedAt := s.updatedAt)
    && s.players.Keys == r.players.Keys && s.spectators.Keys == r.spectators.Keys
    && (forall p :: p in r.players ==> s.players[p] == r.players[p].(lastSequence := s.players[p].lastSequence))
    && (forall p :: p in r.spectators ==> s.spectators[p] == r.spectators[p].(lastSequence := s.spectators[p].lastSequence))
  }

  lemma CursorsAreNotShown(r: Room, s: Room)
    requires SameButForCursors(r, s)
    ensures SameShown(r, s)
  {
    hide SnapshotOf, PrivateViewOf;
    forall at ensures SnapshotOf(s.(updatedAt := at)) == SnapshotOf(r.(updatedAt := at)) {
      SnapshotShowsExactly(s.(updatedAt := at), r.(updatedAt := at));
    }
    forall p ensures PrivateViewOf(s, p) == PrivateViewOf(r, p) {
      CursorsAreNotPrivate(r, s, p);
    }
  }

  lemma CursorsAreNotPrivate(r: Room, s: Room, p: Id)
    requires SameButForCursors(r, s)
    ensures PrivateViewOf(s, p) == PrivateViewOf(r, p)
  {
  }

  lemma SequenceTouchesCursors(r: Room, s: Room, p: Id, n: nat)
    requires s == r.(updatedAt := s.updatedAt)
    ensures SameButForCursors(r, s) && SameButForCursors(r, WithSequence(s, p, n))
  {
    var t := WithSequence(s, p, n);
    if p in r.players {
      assert t == s.(players := r.players[p := r.players[p].(lastSequence := n)]);
    } else if p in r.spectators {
      assert t == s.(spectators := r.spectators[p := r.spectators[p].(lastSequence := n)]);
    } else {
      assert t == s;
    }
    hide WithSequence;
  }

  lemma ChatShowsNothing(r: Room, e: Event, entropy: Entropy)
    requires Inv(r) && e.kind.Chat? && Step(r, e, entropy).Accepted?
    ensures SameShown(r, Step(r, e, entropy).room)
    ensures Step(r, e, entropy).reply.ChatReply?
  {
    hide Inv, Handled, SameShown, SameButForCursors, IsDuplicate, WithSequence;
    SeatsAreApart(r);
    ChatIsPassedOn(r, e, entropy);
    SequenceTouchesCursors(r, r.(updatedAt := e.at), e.player, e.sequence);
    CursorsAreNotShown(r, Step(r, e, entropy).room);
  }

  // ---- One command --------------------------------------------------------------------------------

  lemma ServedShow(before: Channels, after: Channels, id: SubId, news: seq<Posting>, left: Room)
    requires Served(before, after, id, news) && id in after.subscribers && IsSnapshotNews(news, left)
    ensures ShowsLast(after.sent[id], left, before.subscribers[id])
  {
    hide SnapshotOf, Copies, ShowsLast;
    StateIsLast(before.sent[id], news, before.subscribers[id]);
  }

  lemma ServedChat(before: Channels, after: Channels, id: SubId, x: Posting, r: Room)
    requires Served(before, after, id, [x]) && id in after.subscribers && x.envelope.ChatEnvelope?
    requires ShowsLast(before.sent[id], r, before.subscribers[id]) && SameShown(r, x.room)
    ensures ShowsLast(after.sent[id], x.room, before.subscribers[id])
  {
    hide Copies, SameShown, Shows;
    ChatIsNoState(before.sent[id], x, before.subscribers[id]);
    StillShows(before.sent[id], r, x.room, before.subscribers[id]);
  }

  // The broadcast of an accepted event leaves everyone still subscribed with the room as it is.
  lemma BroadcastShows(before: Channels, after: Channels, r: Room, room: Room, reply: Reply, left: Room, id: SubId)
    requires IsTold(before, after, room, reply, left) && id in after.subscribers
    requires reply.ChatReply? && id in before.subscribers ==>
      id in before.sent && ShowsLast(before.sent[id], r, before.subscribers[id]) && SameShown(r, room)
    ensures id in after.sent && ShowsLast(after.sent[id], left, after.subscribers[id])
  {
    hide ShowsLast, SnapshotOf, Served, DropsAre, News, AfterDrops, SameShown, ClosedKept, IsSnapshotNews;
    var drops, news :| IsBroadcast(before, after, room, EnvelopeOf(reply, room), drops, news, left);
    var x := Posting(EnvelopeOf(reply, room), room);
    assert Served(before, after, id, news);
    ServedIsKnown(before, after, id, news);
    if reply == StateReply || News(room, drops) != [] {
      PostedShowsRoom(x, drops);
      ServedShow(before, after, id, news, left);
    } else {
      NewsShowRoom(room, drops);
      assert news == [x];
      ServedChat(before, after, id, x, r);
    }
  }

  lemma KickingKeepsSent(c: Channels, kind: EventKind, id: SubId)
    requires id in AfterKicking(c, kind).subscribers && id in c.sent
    ensures var after := AfterKicking(c, kind); id in c.subscribers && after.subscribers[id] == c.subscribers[id] && id in after.sent && after.sent[id] == c.sent[id]
  {
  }

  lemma GivingUpKeepsSent(c: Channels, other: SubId, id: SubId)
    requires id in GivenUp(c, other).subscribers
    ensures id in c.subscribers && GivenUp(c, other).subscribers[id] == c.subscribers[id] && GivenUp(c, other).sent == c.sent
  {
  }

  // What is said on the channel of anyone still subscribed is the same before anything is broadcast.
  lemma ChannelsForKeepSent(cmd: Command, before: Scene, id: SubId)
    requires var c := ChannelsFor(cmd, before); id in c.subscribers && id in before.channels.sent
    ensures var b, c := before.channels, ChannelsFor(cmd, before);
      id in b.subscribers && c.subscribers[id] == b.subscribers[id] && id in c.sent && c.sent[id] == b.sent[id]
  {
    hide AfterKicking, GivenUp, OutcomeOf;
    if cmd.Dispatch? && OutcomeOf(cmd, before).Accepted? {
      KickingKeepsSent(before.channels, cmd.event.kind, id);
    } else if cmd.Quit? && cmd.id in before.channels.subscribers {
      GivingUpKeepsSent(before.channels, cmd.id, id);
    }
  }

  lemma OpenedShows(before: Scene, p: Id, id: SubId, after: Channels)
    requires IsCurrent(before)
    requires after == Opened(AllEnded(before.channels, SubscriptionsOf(before.channels.subscribers, p), Replaced),
                             id, p, StateMessage(SnapshotOf(before.room), PrivateViewOf(before.room, p)))
    ensures IsCurrent(Scene(after, before.room))
  {
    hide SnapshotOf, PrivateViewOf, Shows;
    StateShows(before.room, p);
  }

  // Only a chat is answered with a chat, and a chat shows nothing but itself.
  lemma ChattingShowsNothing(cmd: Command, before: Scene)
    requires Inv(before.room) && OutcomeOf(cmd, before).Accepted? && OutcomeOf(cmd, before).reply.ChatReply?
    ensures SameShown(before.room, OutcomeOf(cmd, before).room)
  {
    hide Inv, Handled, SameShown, IsDuplicate, WithSequence, IsStale;
    var input := EventOf(cmd, before.channels).value;
    hide OutcomeOf, EventOf;
    if input.event.kind.Chat? {
      ChatShowsNothing(before.room, input.event, input.entropy);
    } else {
      OnlyChatTalks(before.room, input.event, input.entropy);
    }
  }

  lemma ToldShow(cmd: Command, before: Scene, after: Scene, id: SubId)
    requires IsProper(before) && IsCurrent(before) && OutcomeOf(cmd, before).Accepted? && id in after.channels.subscribers
    requires IsTold(ChannelsFor(cmd, before), after.channels, OutcomeOf(cmd, before).room, OutcomeOf(cmd, before).reply, after.room)
    ensures id in after.channels.sent && ShowsLast(after.channels.sent[id], after.room, after.channels.subscribers[id])
  {
    hide Inv, IsSane, OneEach, OutcomeOf, ChannelsFor, IsTold, ShowsLast, SameShown;
    var c, outcome := ChannelsFor(cmd, before), OutcomeOf(cmd, before);
    if outcome.reply.ChatReply? {
      ChattingShowsNothing(cmd, before);
      if id in c.subscribers {
        SubscribersAreSaid(cmd, before, id);
        ChannelsForKeepSent(cmd, before, id);
      }
    }
    BroadcastShows(c, after.channels, before.room, outcome.room, outcome.reply, after.room, id);
  }

  lemma SubscribersAreSaid(cmd: Command, before: Scene, id: SubId)
    requires IsProper(before) && id in ChannelsFor(cmd, before).subscribers
    ensures id in before.channels.subscribers && id in before.channels.sent
  {
    hide OutcomeOf, Inv, OneEach;
  }

  // After a command the last state sent to each subscriber shows the room as it is, if that was so before.
  lemma CommandKeepsCurrent(cmd: Command, before: Scene, after: Scene)
    requires IsProper(before) && IsCurrent(before) && Did(cmd, before, after)
    ensures IsCurrent(after)
  {
    hide IsProper, OutcomeOf, ChannelsFor, IsTold, ShowsLast, AllEnded, SubscriptionsOf, Opened, SnapshotOf, PrivateViewOf;
    if cmd.Enter? {
      hide IsCurrent;
      OpenedShows(before, cmd.player, cmd.id, after.channels);
    } else if !cmd.Read? {
      if OutcomeOf(cmd, before).Accepted? {
        forall id | id in after.channels.subscribers
          ensures id in after.channels.sent && ShowsLast(after.channels.sent[id], after.room, after.channels.subscribers[id])
        {
          ToldShow(cmd, before, after, id);
        }
      } else {
        forall id | id in after.channels.subscribers
          ensures id in after.channels.sent && ShowsLast(after.channels.sent[id], after.room, after.channels.subscribers[id])
        {
          SubscribersAreSaid(cmd, before, id);
          ChannelsForKeepSent(cmd, before, id);
        }
      }
    }
  }

  // Over any run of commands that starts without subscribers, or with all of them shown the room as it is,
  // nobody still subscribed has been left with anything else.
  lemma {:induction false} NobodySeesAStaleRoom(scenes: seq<Scene>, cmds: seq<Command>)
    requires IsHistory(scenes, cmds) && IsCurrent(scenes[0])
    ensures IsCurrent(scenes[|cmds|])
    decreases |cmds|
  {
    hide IsProper, Did, IsCurrent;
    if cmds != [] {
      var n := |cmds| - 1;
      HistoryBegins(scenes, cmds);
      NobodySeesAStaleRoom(scenes[..|cmds|], cmds[..n]);
      CommandKeepsCurrent(cmds[n], scenes[n], scenes[n + 1]);
    }
  }

  // ---- Chat is heard ------------------------------------------------------------------------------

  lemma {:induction false} NewsAreStates(r: Room, drops: seq<Drop>)
    ensures forall i :: 0 <= i < |News(r, drops)| ==> News(r, drops)[i].envelope.StateEnvelope?
  {
    hide AfterDrop, AfterDrops, SnapshotOf, IsSeated;
    if drops != [] {
      NewsAreStates(r, drops[..|drops| - 1]);
    }
  }

  // Of what a broadcast says on a channel still open, only the first word may be a chat.
  lemma BroadcastSays(before: Channels, after: Channels, room: Room, reply: Reply, left: Room, id: SubId)
    requires IsTold(before, after, room, reply, left) && id in after.subscribers
    ensures id in before.subscribers && id in before.sent && id in after.sent && |before.sent[id]| < |after.sent[id]| && before.sent[id] <= after.sent[id]
    ensures reply.ChatReply? ==> after.sent[id][|before.sent[id]|] == ChatMessage(reply.sender, reply.name, reply.message)
    ensures forall i :: |before.sent[id]| <= i < |after.sent[id]| && after.sent[id][i].ChatMessage? ==> i == |before.sent[id]| && reply.ChatReply?
  {
    hide ShowsLast, SnapshotOf, DropsAre, News, AfterDrops, ClosedKept, PrivateViewOf;
    var drops, news :| IsBroadcast(before, after, room, EnvelopeOf(reply, room), drops, news, left);
    assert Served(before, after, id, news);
    NewsAreStates(room, drops);
    assert Fitting(before.queues[id], news) == news;
    assert after.sent[id] == before.sent[id] + Copies(news, before.subscribers[id]);
  }

  // A chat the room accepts is the next thing said to everybody still subscribed, with its sender's name; nothing
  // else is ever said as a chat.
  lemma ChatIsHeardExactly(cmd: Command, before: Scene, after: Scene, id: SubId)
    requires IsProper(before) && Did(cmd, before, after) && OutcomeOf(cmd, before).Accepted? && id in after.channels.subscribers
    ensures id in before.channels.sent && id in after.channels.sent && before.channels.sent[id] <= after.channels.sent[id]
    ensures var was, said := before.channels.sent[id], after.channels.sent[id];
      forall i :: |was| <= i < |said| ==>
        (said[i].ChatMessage? <==> i == |was| && EventOf(cmd, before.channels).value.event.kind.Chat?)
        && (said[i].ChatMessage? ==>
            var e := EventOf(cmd, before.channels).value.event;
            IsSeated(before.room, e.player) && said[i] == ChatMessage(e.player, NameOf(before.room, e.player), e.kind.message))
    ensures |before.channels.sent[id]| < |after.channels.sent[id]|
  {
    hide IsProper, OutcomeOf, ChannelsFor, IsTold, EventOf;
    var outcome := OutcomeOf(cmd, before);
    OnlyChatIsSaid(cmd, before);
    AcceptedIsTold(cmd, before, after);
    BroadcastSays(ChannelsFor(cmd, before), after.channels, outcome.room, outcome.reply, after.room, id);
    SubscribersAreSaid(cmd, before, id);
    ChannelsForKeepSent(cmd, before, id);
  }

  function NameOf(r: Room, p: Id): string
    requires IsSeated(r, p)
  {
    if p in r.players then r.players[p].name else r.spectators[p].name
  }

  lemma OnlyChatIsSaid(cmd: Command, before: Scene)
    requires IsProper(before) && OutcomeOf(cmd, before).Accepted?
    ensures EventOf(cmd, before.channels).Some?
    ensures var e, reply := EventOf(cmd, before.channels).value.event, OutcomeOf(cmd, before).reply;
      (reply.ChatReply? <==> e.kind.Chat?)
      && (e.kind.Chat? ==> IsSeated(before.room, e.player) && reply == ChatReply(e.player, NameOf(before.room, e.player), e.kind.message))
  {
    hide Inv, Handled, IsDuplicate, WithSequence, IsStale, IsSane, OneEach;
    SeatsAreApart(before.room);
    var input := EventOf(cmd, before.channels).value;
    hide OutcomeOf, EventOf;
    if input.event.kind.Chat? {
      ChatIsPassedOn(before.room, input.event, input.entropy);
    } else {
      OnlyChatTalks(before.room, input.event, input.entropy);
    }
  }
}
