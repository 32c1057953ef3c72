// The actor that owns a room (internal/room/actor.go): one command at a time, a bounded queue for
// each subscriber, and a broadcast that drops the subscribers that do not keep up.

module Actor {
  import opened Order
  import opened Rules
  import opened Settings
  import opened RoomModel
  import opened RoomInvariant
  import opened RoomRuns
  import opened RoomState
  import opened Streams
  import opened Views

  datatype ActorError = ConnectionReplaced | RoomError(error: Error)

  const NO_ENTROPY := Entropy(NO_TOKEN, [])

  function SubscriptionsOf(subscribers: map<SubId, Id>, p: Id): set<SubId> {
    set id | id in subscribers && subscribers[id] == p
  }

  predicate IsStale(subscribers: map<SubId, Id>, from: Option<SubId>, p: Id) {
    from.Some? && !(from.value in subscribers && subscribers[from.value] == p)
  }

  // These subscriptions ended with a reason.
  function AllEnded(c: Channels, ended: set<SubId>, reason: Ending): Channels {
    Channels(c.subscribers - ended,
             map id | id in c.queues :: if id in ended then [EndMessage(reason)] else c.queues[id],
             c.closed + ended,
             map id | id in c.sent :: if id in ended then c.sent[id] + [EndMessage(reason)] else c.sent[id])
  }

  // The channels of these subscriptions are closed, and the reason is the last thing said on them.
  ghost predicate HaveEnded(before: Channels, after: Channels, ended: set<SubId>, reason: Ending) {
    forall id :: id in ended ==>
      && id in after.closed && id in before.sent && id in after.sent
      && after.sent[id] == before.sent[id] + [EndMessage(reason)]
  }

  // The channels once an accepted event has put a kicked participant out.
  function AfterKicking(c: Channels, kind: EventKind): Channels {
    if kind.KickParticipant? then AllEnded(c, SubscriptionsOf(c.subscribers, kind.target), Kicked) else c
  }

  function Departure(p: Id, permanent: bool, now: int): Event {
    Event(p, 0, if permanent then Leave else Disconnect, now)
  }

  // ---- Who is left ----------------------------------------------------------------------------

  lemma LostInTwo(a: map<SubId, Id>, b: map<SubId, Id>, c: map<SubId, Id>)
    requires OneEach(a) && Remains(a, b) && Remains(b, c)
    ensures Remains(a, c) && Lost(a, c) == Lost(a, b) + Lost(b, c) && Lost(a, b) !! Lost(b, c)
  {
  }

  lemma FewerRemain(a: map<SubId, Id>, b: map<SubId, Id>)
    requires Remains(a, b)
    ensures |b| <= |a| && (Lost(a, b) != {} ==> |b| < |a|)
  {
    assert b.Keys <= a.Keys;
    assert |a| == |a.Keys| && |b| == |b.Keys|;
    SubsetIsSmaller(b.Keys, a.Keys);
    if Lost(a, b) != {} {
      var p :| p in Lost(a, b);
      var id :| id in a && id !in b && a[id] == p;
      SubsetIsSmaller(b.Keys, a.Keys - {id});
    }
  }

  lemma NoneLost(subscribers: map<SubId, Id>)
    ensures Remains(subscribers, subscribers) && Lost(subscribers, subscribers) == {}
  {
  }

  lemma LeavingKeepsOneEach(before: map<SubId, Id>, after: map<SubId, Id>)
    requires OneEach(before) && Remains(before, after)
    ensures OneEach(after)
  {
  }

  lemma NewcomerIsAlone(subscribers: map<SubId, Id>, p: Id, id: SubId)
    requires OneEach(subscribers) && SubscriptionsOf(subscribers, p) == {}
    ensures OneEach(subscribers[id := p])
  {
    assert forall a :: a in subscribers && subscribers[a] == p ==> a in SubscriptionsOf(subscribers, p);
  }

  lemma NobodyElse(subscribers: map<SubId, Id>, p: Id)
    ensures SubscriptionsOf(subscribers - SubscriptionsOf(subscribers, p), p) == {}
  {
  }

  // These are the participants lost, each once.
  ghost predicate AreThose(players: seq<Id>, lost: set<Id>) {
    Distinct(players) && forall p :: p in players <==> p in lost
  }

  function Elements(players: seq<Id>): set<Id> {
    set p | p in players
  }

  lemma NobodyListed(subscribers: map<SubId, Id>)
    ensures Remains(subscribers, subscribers) && AreThose([], Lost(subscribers, subscribers))
  {
  }

  lemma OneMoreLost(before: map<SubId, Id>, after: map<SubId, Id>, id: SubId, players: seq<Id>)
    requires OneEach(before) && Remains(before, after) && id in after && AreThose(players, Lost(before, after))
    ensures AreThose(players + [after[id]], Lost(before, after - {id}))
  {
    var lost := Lost(before, after);
    assert Lost(before, after - {id}) == lost + {after[id]};
    assert after[id] !in lost;
    hide Lost;
    DistinctGrows(players, after[id]);
  }

  // Of those listed, the next is not subscribed, so there are fewer than before.
  lemma StillToGo(before: map<SubId, Id>, first: map<SubId, Id>, now: map<SubId, Id>, players: seq<Id>, i: nat)
    requires OneEach(before) && Remains(before, first) && Remains(first, now)
    requires AreThose(players, Lost(before, first)) && i < |players|
    ensures players[i] !in now.Values && |now| < |before|
  {
    assert players[i] in players;
    LostInTwo(before, first, now);
    FewerRemain(before, now);
  }

  lemma GoneToo(before: map<SubId, Id>, first: map<SubId, Id>, now: map<SubId, Id>, after: map<SubId, Id>,
                players: seq<Id>, i: nat, had: seq<Drop>, more: seq<Drop>)
    requires OneEach(before) && Remains(before, first) && Remains(first, now) && Remains(now, after)
    requires AreThose(players, Lost(before, first)) && i < |players|
    requires DropsAre(had, Elements(players[..i]) + Lost(first, now))
    requires DropsAre(more, {players[i]} + Lost(now, after))
    ensures Remains(first, after) && DropsAre(had + more, Elements(players[..i + 1]) + Lost(first, after))
  {
    hide DropsAre;
    LeavingKeepsOneEach(before, first);
    LostInTwo(before, first, now);
    LostInTwo(first, now, after);
    LostInTwo(before, first, after);
    hide Lost, Remains, OneEach;
    assert players[..i + 1] == players[..i] + [players[i]];
    assert Elements(players[..i + 1]) == Elements(players[..i]) + {players[i]};
    assert Elements(players[..i + 1]) <= Lost(before, first);
    assert players[i] !in Elements(players[..i]);
    var those, these := Elements(players[..i]) + Lost(first, now), {players[i]} + Lost(now, after);
    DropsAreBoth(had, more, those, these);
    assert those + these == Elements(players[..i + 1]) + Lost(first, after);
  }

  lemma AllGone(before: map<SubId, Id>, first: map<SubId, Id>, after: map<SubId, Id>, players: seq<Id>, drops: seq<Drop>)
    requires OneEach(before) && Remains(before, first) && Remains(first, after)
    requires AreThose(players, Lost(before, first)) && DropsAre(drops, Elements(players) + Lost(first, after))
    ensures DropsAre(drops, Lost(before, after))
  {
    hide DropsAre;
    LostInTwo(before, first, after);
    assert Elements(players) == Lost(before, first);
  }

  lemma NobodyYet(first: map<SubId, Id>, players: seq<Id>)
    ensures Remains(first, first) && DropsAre([], Elements(players[..0]) + Lost(first, first))
  {
  }

  lemma NothingHappened(r: Room)
    ensures AfterDrops(r, []) == r && News(r, []) == []
  {
  }

  lemma SaneWires(c: Channels, streams: map<SubId, Stream>, posted: seq<Posting>)
    requires ChannelsOk(c, streams, posted, {})
    ensures IsSane(c)
  {
  }

  lemma BehindIsOpen(c: Channels, streams: map<SubId, Stream>, posted: seq<Posting>, behind: set<SubId>, id: SubId)
    requires ChannelsOk(c, streams, posted, behind) && id in behind
    ensures id in c.subscribers
  {
  }

  lemma ServedRemain(before: Channels, after: Channels, news: seq<Posting>)
    requires AllServed(before, after, news)
    ensures Remains(before.subscribers, after.subscribers) && ClosedKept(before, after)
    ensures after.queues.Keys == before.queues.Keys
  {
  }

  // ---- Subscriptions ended --------------------------------------------------------------------

  lemma NobodyEnded(c: Channels, reason: Ending)
    ensures AllEnded(c, {}, reason) == c
  {
  }

  lemma KnownBeforeEnding(c: Channels, ended: set<SubId>, reason: Ending, id: SubId)
    requires id in AllEnded(c, ended, reason).queues && id in AllEnded(c, ended, reason).sent
    ensures id in c.queues && id in c.sent
  {
  }

  lemma OneMoreEnded(c: Channels, ended: set<SubId>, id: SubId, reason: Ending)
    requires id !in ended && id in c.sent && id in c.queues
    ensures EndedWith(AllEnded(c, ended, reason), id, reason) == AllEnded(c, ended + {id}, reason)
  {
  }

  lemma EndingKeepsClosed(c: Channels, ended: set<SubId>, reason: Ending)
    requires IsSane(c) && ended <= c.subscribers.Keys
    ensures ClosedKept(c, AllEnded(c, ended, reason)) && IsSane(AllEnded(c, ended, reason))
    ensures HaveEnded(c, AllEnded(c, ended, reason), ended, reason)
  {
    var after := AllEnded(c, ended, reason);
    assert after.closed == after.queues.Keys - after.subscribers.Keys;
  }

  lemma OpeningKeepsClosed(c: Channels, id: SubId, p: Id, first: Message)
    requires IsSane(c) && id !in c.queues
    ensures ClosedKept(c, Opened(c, id, p, first))
  {
  }

  lemma GivingUpKeepsClosed(c: Channels, id: SubId)
    requires IsSane(c) && id in c.subscribers
    ensures ClosedKept(c, GivenUp(c, id)) && IsSane(GivenUp(c, id))
  {
    var after := GivenUp(c, id);
    assert after.closed == after.queues.Keys - after.subscribers.Keys;
  }

  lemma NothingClosed(c: Channels)
    ensures ClosedKept(c, c)
  {
  }

  lemma OnlySubscribersEnd(subscribers: map<SubId, Id>, p: Id)
    ensures SubscriptionsOf(subscribers, p) <= subscribers.Keys
  {
  }

  lemma EndingMakesNoChannel(c: Channels, ended: set<SubId>, reason: Ending)
    ensures AllEnded(c, ended, reason).queues.Keys == c.queues.Keys
  {
  }

  lemma EndingLeaves(c: Channels, ended: set<SubId>, reason: Ending)
    ensures AllEnded(c, ended, reason).subscribers == c.subscribers - ended
  {
  }

  lemma NewIsNotClosed(c: Channels, id: SubId)
    requires IsSane(c) && id !in c.queues
    ensures id !in c.closed
  {
  }

  lemma OnlySubscribersAreLost(before: map<SubId, Id>, after: map<SubId, Id>)
    ensures Lost(before, after) <= before.Values
  {
  }

  lemma OneLessKeepsOneEach(subscribers: map<SubId, Id>, id: SubId)
    requires OneEach(subscribers)
    ensures OneEach(subscribers - {id})
  {
  }

  lemma AfterDropIs(r: Room, d: Drop)
    ensures match AfterDisconnect(r, d.player, d.at)
      case Rejected(_) => AfterDrop(r, d) == r
      case Accepted(s, _) => AfterDrop(r, d) == s
  {
    hide AfterDisconnect;
  }

  // What was said on a channel once closed is all that is ever said on it.
  lemma StillEnded(a: Channels, b: Channels, c: Channels, ended: set<SubId>, reason: Ending)
    requires HaveEnded(a, b, ended, reason) && ClosedKept(b, c)
    ensures HaveEnded(a, c, ended, reason)
  {
    forall id | id in ended ensures id in c.closed && id in c.sent && c.sent[id] == a.sent[id] + [EndMessage(reason)] {
      assert id in b.closed && id in b.sent;
    }
  }

  lemma UnsequencedDisconnect(r: Room, p: Id, now: int)
    ensures Step(r, Event(p, 0, Disconnect, now), NO_ENTROPY) == AfterDisconnect(r, p, now)
    ensures AfterDisconnect(r, p, now).Accepted? <==> IsSeated(r, p)
    ensures AfterDisconnect(r, p, now).Accepted? ==> AfterDisconnect(r, p, now).reply == StateReply
  {
    hide ConnectedOwner;
  }

  class Actor {
    const state: State
    var subscribers: map<SubId, Id>
    // What is waiting to be read on every channel ever made, and which of them are closed.
    var queues: Queues
    var closed: set<SubId>
    // Everything ever sent on each channel, what it should be, and everything posted to the room.
    ghost var sent: Queues
    ghost var streams: map<SubId, Stream>
    ghost var posted: seq<Posting>

    ghost function Wires(): Channels
      reads this
    {
      Channels(subscribers, queues, closed, sent)
    }

    ghost predicate Valid()
      reads this, state
    {
      && state.Valid()
      && ChannelsOk(Wires(), streams, posted, {})
      && OneEach(subscribers)
    }

    twostate predicate Untouched()
      reads this, state
    {
      && Wires() == old(Wires()) && streams == old(streams) && posted == old(posted)
      && state.View() == old(state.View()) && state.log == old(state.log)
    }

    constructor (durations: PhaseDurations, maxSpectators: int, now: int)
      requires durations.Valid() && maxSpectators > 0
      ensures Valid() && fresh(state) && subscribers == map[] && queues == map[] && posted == []
      ensures state.View() == NewRoom(durations, maxSpectators, now)
    {
      state := new State(durations, maxSpectators, now);
      subscribers, queues, closed := map[], map[], {};
      sent, streams, posted := map[], map[], [];
    }

    // ---- Channels -----------------------------------------------------------------------------

    // Sending blocks on a full channel and panics on a closed one: neither may happen.
    method Send(id: SubId, m: Message)
      requires id in queues && id !in closed && |queues[id]| < QUEUE_CAPACITY && id in sent
      modifies this`queues, this`sent
      ensures Wires() == Delivered(old(Wires()), id, m)
    {
      queues := queues[id := queues[id] + [m]];
      sent := sent[id := sent[id] + [m]];
    }

    // Closing a closed channel panics: it may not happen either.
    method Close(id: SubId)
      requires id in queues && id !in closed
      modifies this`closed
      ensures closed == old(closed) + {id}
    {
      closed := closed + {id};
    }

    // The reader's side: whenever it likes, between commands.
    method Receive(id: SubId) returns (m: Message)
      requires Valid() && id in queues && queues[id] != []
      modifies this`queues
      ensures Valid() && m == old(queues)[id][0] && queues == old(queues)[id := old(queues)[id][1..]]
    {
      hide Inv, Reachable, ChannelsOk;
      IsRead(Wires(), streams, posted, id);
      m := queues[id][0];
      queues := queues[id := queues[id][1..]];
    }

    // A subscription is told why it ends, whatever was unread is thrown away, and the channel is closed.
    method EndSubscription(id: SubId, reason: Ending)
      requires ChannelsOk(Wires(), streams, posted, {}) && id in subscribers
      modifies this`subscribers, this`queues, this`closed, this`sent, this`streams
      ensures ChannelsOk(Wires(), streams, posted, {})
      ensures id in old(sent) && id in old(queues) && id !in old(closed)
      ensures Wires() == EndedWith(old(Wires()), id, reason)
    {
      hide ChannelsOk;
      OpenIsKnown(Wires(), streams, posted, {}, id);
      IsEnded(Wires(), streams, posted, id, reason);
      queues := queues[id := []];
      Send(id, EndMessage(reason));
      assert [] + [EndMessage(reason)] == [EndMessage(reason)];
      assert queues == old(queues)[id := [EndMessage(reason)]];
      subscribers := subscribers - {id};
      Close(id);
      streams := Cut(streams, id, |posted|, Some(reason));
    }

    // Every subscription of a participant is ended.
    method DisconnectParticipant(p: Id, reason: Ending)
      requires Valid()
      modifies this`subscribers, this`queues, this`closed, this`sent, this`streams
      ensures Valid()
      ensures Wires() == AllEnded(old(Wires()), SubscriptionsOf(old(subscribers), p), reason)
    {
      hide Inv, Reachable, ChannelsOk, AllEnded;
      NobodyEnded(Wires(), reason);
      ghost var ended: set<SubId> := {};
      var todo := subscribers.Keys;
      while todo != {}
        invariant todo <= old(subscribers).Keys
        invariant ended == SubscriptionsOf(old(subscribers), p) - todo
        invariant ChannelsOk(Wires(), streams, posted, {})
        invariant subscribers == old(subscribers) - ended
        invariant Wires() == AllEnded(old(Wires()), ended, reason)
      {
        var id :| id in todo;
        hide OneEach;
        if subscribers[id] == p {
          EndSubscription(id, reason);
          KnownBeforeEnding(old(Wires()), ended, reason, id);
          OneMoreEnded(old(Wires()), ended, id, reason);
          ended := ended + {id};
        }
        todo := todo - {id};
      }
      assert ended == SubscriptionsOf(old(subscribers), p);
      LeavingKeepsOneEach(old(subscribers), subscribers);
    }

    // ---- Broadcast ----------------------------------------------------------------------------

    method DeliverTo(id: SubId, envelope: Envelope, ghost behind: set<SubId>) returns (delivered: bool)
      requires state.LogKept() && ChannelsOk(Wires(), streams, posted, behind) && id in behind
      requires posted != [] && posted[|posted| - 1] == Posting(envelope, state.View())
      modifies this`subscribers, this`queues, this`closed, this`sent, this`streams
      ensures ChannelsOk(Wires(), streams, posted, behind - {id})
      ensures id in old(subscribers) && id in old(queues) && id in old(sent)
      ensures delivered <==> |old(queues)[id]| < QUEUE_CAPACITY
      ensures Wires() == if delivered then Delivered(old(Wires()), id, Copy(posted[|posted| - 1], old(subscribers)[id]))
        else GivenUp(old(Wires()), id)
    {
      hide ChannelsOk;
      BehindIsOpen(Wires(), streams, posted, behind, id);
      OpenIsKnown(Wires(), streams, posted, behind, id);
      var p := subscribers[id];
      var m := Personalize(envelope, p);
      assert m == Copy(posted[|posted| - 1], p);
      delivered := |queues[id]| < QUEUE_CAPACITY;
      if delivered {
        CatchesUp(Wires(), streams, posted, behind, id);
        Send(id, m);
      } else {
        DropsOut(Wires(), streams, posted, behind, id);
        subscribers := subscribers - {id};
        Close(id);
        streams := Cut(streams, id, |posted| - 1, None);
      }
    }

    // A copy to everyone whose channel has room; exactly the others are dropped.
    method Deliver(envelope: Envelope) returns (disconnected: seq<Id>)
      requires Valid()
      modifies this`subscribers, this`queues, this`closed, this`sent, this`streams, this`posted
      ensures Valid()
      ensures posted == old(posted) + [Posting(envelope, state.View())]
      ensures AllServed(old(Wires()), Wires(), [Posting(envelope, state.View())])
      ensures OneEach(old(subscribers)) && AreThose(disconnected, Lost(old(subscribers), subscribers))
    {
      hide Inv, Reachable, ChannelsOk, OneEach, PartlyServed, AllServed, AreThose, Lost;
      ghost var before, x := Wires(), Posting(envelope, state.View());
      SaneWires(before, streams, posted);
      AllWaiting(before, x);
      PostingLeavesAllBehind(before, streams, posted, x);
      posted := posted + [x];
      disconnected := [];
      NobodyListed(subscribers);
      var todo := subscribers.Keys;
      while todo != {}
        invariant todo <= subscribers.Keys && Remains(before.subscribers, subscribers)
        invariant ChannelsOk(Wires(), streams, posted, todo) && posted == old(posted) + [x]
        invariant PartlyServed(before, Wires(), x, todo)
        invariant AreThose(disconnected, Lost(before.subscribers, subscribers))
      {
        var id :| id in todo;
        var p := subscribers[id];
        OpenIsKnown(Wires(), streams, posted, todo, id);
        OneMoreIsServed(before, Wires(), x, todo, id);
        OneMoreLost(before.subscribers, subscribers, id, disconnected);
        var delivered := DeliverTo(id, envelope, todo);
        if !delivered {
          disconnected := disconnected + [p];
        }
        todo := todo - {id};
      }
      NobodyWaits(before, Wires(), x);
      LeavingKeepsOneEach(before.subscribers, subscribers);
    }

    method Personalize(envelope: Envelope, p: Id) returns (m: Message)
      requires state.LogKept()
      ensures m == Personalized(envelope, state.View(), p)
    {
      match envelope
      case StateEnvelope(snapshot) =>
        var view := state.ViewFor(p);
        m := StateMessage(snapshot, view);
      case ChatEnvelope(sender, name, message) =>
        m := ChatMessage(sender, name, message);
    }

    // The envelope goes out; whoever could not take it is disconnected, and the others hear of that,
    // which may leave more behind. Each round has fewer subscribers, so it ends.
    method Broadcast(envelope: Envelope) returns (ghost drops: seq<Drop>)
      requires Valid()
      modifies this`subscribers, this`queues, this`closed, this`sent, this`streams, this`posted, state
      ensures Valid()
      ensures old(posted) <= posted
      ensures IsBroadcast(old(Wires()), Wires(), old(state.View()), envelope, drops, posted[|old(posted)|..], state.View())
      decreases |subscribers|, 0
    {
      hide Valid, State.View, OneEach, AllServed, IsPosted, Lost, Remains, DropsAre, AfterDrops, News, AreThose, IsSane, Elements;
      ghost var before, had, x := Wires(), posted, Posting(envelope, state.View());
      var disconnected := Deliver(envelope);
      ghost var first := subscribers;
      ServedRemain(before, Wires(), [x]);
      JustPosted(before, Wires(), x);
      NobodyYet(first, disconnected);
      drops := [];
      ghost var news := [x];
      for i := 0 to |disconnected|
        invariant Valid() && posted == had + news
        invariant IsPosted(before, Wires(), x, drops, news, state.View())
        invariant Remains(first, subscribers)
        invariant DropsAre(drops, Elements(disconnected[..i]) + Lost(first, subscribers))
      {
        ghost var were, was := subscribers, drops;
        StillToGo(before.subscribers, first, were, disconnected, i);
        ghost var more, added := DisconnectNext(disconnected[i], before, x, was, news);
        news := news + added;
        GoneToo(before.subscribers, first, were, subscribers, disconnected, i, was, more);
        drops := was + more;
      }
      assert disconnected[..|disconnected|] == disconnected && posted[|had|..] == news;
      AllGone(before.subscribers, first, subscribers, disconnected, drops);
    }

    // The next one is disconnected, and the broadcast is so much further.
    method DisconnectNext(p: Id, ghost before: Channels, ghost x: Posting, ghost had: seq<Drop>, ghost news: seq<Posting>)
      returns (ghost drops: seq<Drop>, ghost added: seq<Posting>)
      requires Valid() && p !in subscribers.Values && IsPosted(before, Wires(), x, had, news, state.View())
      modifies this`subscribers, this`queues, this`closed, this`sent, this`streams, this`posted, state
      ensures Valid() && posted == old(posted) + added
      ensures IsPosted(before, Wires(), x, had + drops, news + added, state.View())
      ensures Remains(old(subscribers), subscribers) && DropsAre(drops, {p} + Lost(old(subscribers), subscribers))
      decreases |subscribers|, 2
    {
      hide Valid, State.View, AllServed, IsPosted, Lost, Remains, DropsAre, AfterDrops, News, IsSane;
      ghost var mid, left := Wires(), state.View();
      drops := DisconnectSlow(p);
      added := News(left, drops);
      PostingGoesOn(before, mid, Wires(), x, had, drops, news, left);
      ServedRemain(mid, Wires(), added);
    }

    // One who could not keep up is disconnected, and everyone left is told if the room knew them.
    method DisconnectSlow(p: Id) returns (ghost drops: seq<Drop>)
      requires Valid() && p !in subscribers.Values
      modifies this`subscribers, this`queues, this`closed, this`sent, this`streams, this`posted, state
      ensures Valid()
      ensures posted == old(posted) + News(old(state.View()), drops)
      ensures state.View() == AfterDrops(old(state.View()), drops)
      ensures IsSane(old(Wires())) && AllServed(old(Wires()), Wires(), News(old(state.View()), drops))
      ensures DropsAre(drops, {p} + Lost(old(subscribers), subscribers))
      decreases |subscribers|, 1
    {
      hide Inv, Reachable, ChannelsOk, OneEach, AllServed, Lost, Remains, DropsAre, AfterDrops, News, Step, AfterDisconnect, AfterDrop;
      ghost var before, room, had := Wires(), state.View(), posted;
      SaneWires(before, streams, posted);
      NoneLost(subscribers);
      var now := *;
      UnsequencedDisconnect(room, p, now);
      ghost var drop := Drop(p, now);
      OneDrop(room, drop);
      JustOneDrop(drop);
      AfterDropIs(room, drop);
      var reply := state.Apply(Event(p, 0, Disconnect, now), NO_ENTROPY);
      if reply.Err? {
        NothingPosted(before);
        drops := [drop];
        assert {p} + Lost(subscribers, subscribers) == {p};
        assert posted + [] == posted;
        return;
      }
      var snapshot := state.TakeSnapshot();
      assert NewsOf(room, drop) == [Posting(StateEnvelope(snapshot), state.View())];
      ghost var after := state.View();
      ghost var more := Broadcast(StateEnvelope(snapshot));
      drops := [drop] + more;
      DropsJoin(room, [drop], more);
      assert posted == had + posted[|had|..];
      ghost var lost := Lost(before.subscribers, subscribers);
      OnlySubscribersAreLost(before.subscribers, subscribers);
      DropsAreBoth([drop], more, {p}, lost);
    }

    // ---- Commands -----------------------------------------------------------------------------

    method EnvelopeFor(reply: Reply) returns (envelope: Envelope)
      requires state.LogKept()
      ensures envelope == EnvelopeOf(reply, state.View())
    {
      match reply
      case StateReply =>
        var snapshot := state.TakeSnapshot();
        envelope := StateEnvelope(snapshot);
      case ChatReply(sender, name, message) =>
        envelope := ChatEnvelope(sender, name, message);
    }

    // An event from a connection that has been replaced or dropped changes nothing, nor does one the room
    // refuses. Any other does to the room what one event does; a participant kicked is told so on a channel
    // that then says no more, and everyone still subscribed is told.
    method DispatchFrom(from: Option<SubId>, e: Event, entropy: Entropy) returns (r: Result<Reply, ActorError>, ghost drops: seq<Drop>)
      requires Valid()
      modifies this`subscribers, this`queues, this`closed, this`sent, this`streams, this`posted, state
      ensures Valid() && ClosedKept(old(Wires()), Wires()) && old(posted) <= posted
      ensures IsStale(old(subscribers), from, e.player) ==> r == Err(ConnectionReplaced) && Untouched()
      ensures !IsStale(old(subscribers), from, e.player) ==>
        match Step(old(state.View()), e, entropy)
        case Rejected(error) => r == Err(RoomError(error)) && Untouched()
        case Accepted(room, reply) =>
          && r == Ok(reply)
          && IsBroadcast(AfterKicking(old(Wires()), e.kind), Wires(), room, EnvelopeOf(reply, room), drops, posted[|old(posted)|..], state.View())
      ensures r.Ok? && e.kind.KickParticipant? ==>
        HaveEnded(old(Wires()), Wires(), SubscriptionsOf(old(subscribers), e.kind.target), Kicked)
    {
      hide Inv, Reachable, ChannelsOk, OneEach, AllServed, Lost, DropsAre, AfterDrops, News, Step, ClosedKept, AllEnded, IsSane, SubscriptionsOf, SnapshotOf, HaveEnded, Remains;
      drops := [];
      NothingClosed(Wires());
      if from.Some? {
        if from.value !in subscribers || subscribers[from.value] != e.player {
          return Err(ConnectionReplaced), [];
        }
      }
      var reply := state.Apply(e, entropy);
      if reply.Err? {
        return Err(RoomError(reply.error)), [];
      }
      ghost var before := Wires();
      PutOut(e.kind);
      ghost var mid := Wires();
      var envelope := EnvelopeFor(reply.value);
      drops := Broadcast(envelope);
      ServedRemain(mid, Wires(), posted[|old(posted)|..]);
      KeptTwice(before, mid, Wires());
      if e.kind.KickParticipant? {
        StillEnded(before, mid, Wires(), SubscriptionsOf(before.subscribers, e.kind.target), Kicked);
      }
      r := Ok(reply.value);
    }

    method PutOut(kind: EventKind)
      requires Valid()
      modifies this`subscribers, this`queues, this`closed, this`sent, this`streams
      ensures Valid() && ClosedKept(old(Wires()), Wires())
      ensures Wires() == AfterKicking(old(Wires()), kind)
      ensures kind.KickParticipant? ==> HaveEnded(old(Wires()), Wires(), SubscriptionsOf(old(subscribers), kind.target), Kicked)
    {
      hide Inv, Reachable, ChannelsOk, OneEach, ClosedKept, AllEnded, IsSane, SubscriptionsOf, HaveEnded;
      NothingClosed(Wires());
      if kind.KickParticipant? {
        OnlySubscribersEnd(subscribers, kind.target);
        SaneWires(Wires(), streams, posted);
        EndingKeepsClosed(Wires(), SubscriptionsOf(subscribers, kind.target), Kicked);
        DisconnectParticipant(kind.target, Kicked);
      }
    }

    // The newcomer takes over from an older connection of the same participant, which is told so and
    // closed, and starts from the room as it is. The new subscription's id has not been used before.
    method Subscribe(p: Id, id: SubId)
      requires Valid() && id !in queues
      modifies this`subscribers, this`queues, this`closed, this`sent, this`streams
      ensures Valid() && ClosedKept(old(Wires()), Wires())
      ensures Wires() == Opened(AllEnded(old(Wires()), SubscriptionsOf(old(subscribers), p), Replaced),
                                id, p, StateMessage(SnapshotOf(state.View()), PrivateViewOf(state.View(), p)))
      ensures HaveEnded(old(Wires()), Wires(), SubscriptionsOf(old(subscribers), p), Replaced)
    {
      hide Inv, Reachable, ChannelsOk, ClosedKept, AllEnded, IsSane, SubscriptionsOf, SnapshotOf, PrivateViewOf, HaveEnded;
      ghost var before, ended := Wires(), SubscriptionsOf(subscribers, p);
      OnlySubscribersEnd(subscribers, p);
      SaneWires(before, streams, posted);
      EndingKeepsClosed(before, ended, Replaced);
      DisconnectParticipant(p, Replaced);
      ghost var mid := Wires();
      EndingMakesNoChannel(before, ended, Replaced);
      NobodyElse(before.subscribers, p);
      EndingLeaves(before, ended, Replaced);
      NewcomerIsAlone(subscribers, p, id);
      var snapshot := state.TakeSnapshot();
      var m := Personalize(StateEnvelope(snapshot), p);
      Open(p, id, m);
      KeptTwice(before, mid, Wires());
      StillEnded(before, mid, Wires(), ended, Replaced);
    }

    method Attach(p: Id, id: SubId, m: Message)
      requires id !in queues && id !in closed
      modifies this`subscribers, this`queues, this`sent
      ensures Wires() == Opened(old(Wires()), id, p, m)
    {
      subscribers := subscribers[id := p];
      queues, sent := queues[id := []], sent[id := []];
      Send(id, m);
      assert [] + [m] == [m];
      assert queues == old(queues)[id := [m]] && sent == old(sent)[id := [m]];
    }

    method Open(p: Id, id: SubId, m: Message)
      requires ChannelsOk(Wires(), streams, posted, {}) && id !in queues && !m.EndMessage?
      modifies this`subscribers, this`queues, this`sent, this`streams
      ensures ChannelsOk(Wires(), streams, posted, {})
      ensures Wires() == Opened(old(Wires()), id, p, m) && ClosedKept(old(Wires()), Wires())
    {
      hide ChannelsOk, ClosedKept, IsSane, Opened;
      ghost var before := Wires();
      SaneWires(before, streams, posted);
      IsOpened(before, streams, posted, id, p, m);
      OpeningKeepsClosed(before, id, p, m);
      NewIsNotClosed(before, id);
      Attach(p, id, m);
      streams := streams[id := Stream(p, m, |posted|, None)];
    }

    // A subscription that has been replaced, kicked or dropped gives up nothing. A standing one is closed
    // without a word, and its participant leaves or is disconnected.
    method Unsubscribe(id: SubId, permanent: bool, now: int) returns (ghost drops: seq<Drop>)
      requires Valid()
      modifies this`subscribers, this`queues, this`closed, this`sent, this`streams, this`posted, state
      ensures Valid() && ClosedKept(old(Wires()), Wires()) && old(posted) <= posted
      ensures id !in old(subscribers) ==> Untouched()
      ensures id in old(subscribers) ==>
        var e := Departure(old(subscribers)[id], permanent, now);
        var left := GivenUp(old(Wires()), id);
        match Step(old(state.View()), e, NO_ENTROPY)
        case Rejected(_) => Wires() == left && posted == old(posted) && state.View() == old(state.View())
        case Accepted(room, reply) =>
          IsBroadcast(left, Wires(), room, EnvelopeOf(reply, room), drops, posted[|old(posted)|..], state.View())
    {
      hide Inv, Reachable, ChannelsOk, OneEach, AllServed, Lost, DropsAre, AfterDrops, News, Step, ClosedKept, IsSane, SnapshotOf;
      drops := [];
      NothingClosed(Wires());
      if id in subscribers {
        ghost var before := Wires();
        var p := subscribers[id];
        SaneWires(before, streams, posted);
        OpenIsKnown(before, streams, posted, {}, id);
        IsGivenUp(before, streams, posted, id);
        GivingUpKeepsClosed(before, id);
        OneLessKeepsOneEach(subscribers, id);
        subscribers := subscribers - {id};
        Close(id);
        streams := Cut(streams, id, |posted|, None);
        ghost var mid := Wires();
        var reply := state.Apply(Departure(p, permanent, now), NO_ENTROPY);
        if reply.Ok? {
          var envelope := EnvelopeFor(reply.value);
          drops := Broadcast(envelope);
          ServedRemain(mid, Wires(), posted[|old(posted)|..]);
          KeptTwice(before, mid, Wires());
        }
      }
    }

    // The timer is one timeout event: if the room accepts it, everyone is told.
    method PhaseTimer(now: int) returns (ghost drops: seq<Drop>)
      requires Valid()
      modifies this`subscribers, this`queues, this`closed, this`sent, this`streams, this`posted, state
      ensures Valid() && ClosedKept(old(Wires()), Wires()) && old(posted) <= posted
      ensures match Step(old(state.View()), Event(NO_ID, 0, PhaseTimeout, now), NO_ENTROPY)
        case Rejected(_) => Untouched()
        case Accepted(room, reply) =>
          IsBroadcast(old(Wires()), Wires(), room, EnvelopeOf(reply, room), drops, posted[|old(posted)|..], state.View())
    {
      hide Inv, Reachable, ChannelsOk, OneEach, AllServed, Lost, DropsAre, AfterDrops, News, Step, ClosedKept, SnapshotOf;
      drops := [];
      ghost var before := Wires();
      NothingClosed(before);
      var reply := state.Apply(Event(NO_ID, 0, PhaseTimeout, now), NO_ENTROPY);
      if reply.Ok? {
        var envelope := EnvelopeFor(reply.value);
        drops := Broadcast(envelope);
        ServedRemain(before, Wires(), posted[|old(posted)|..]);
      }
    }
  }
}
