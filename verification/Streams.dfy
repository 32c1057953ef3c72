// What each subscriber of a room is told (internal/room/actor.go): from the moment of subscribing,
// everything posted, in order and without gaps, for as long as its queue has room, and then at most
// one word of why it ends.

module Streams {
  import opened Rules
  import opened RoomModel
  import opened Views

  const QUEUE_CAPACITY := 16

  datatype SubId = SubId(key: int)

  datatype Envelope = StateEnvelope(snapshot: Snapshot) | ChatEnvelope(sender: Id, name: string, message: string)

  datatype Ending = Replaced | Kicked

  datatype Message =
    | StateMessage(snapshot: Snapshot, private: Option<PrivateView>)
    | ChatMessage(sender: Id, name: string, message: string)
    | EndMessage(reason: Ending)

  type Queues = map<SubId, seq<Message>>

  // Who is subscribed; what is waiting to be read on every channel ever made; which channels are closed;
  // and everything ever sent on each.
  datatype Channels = Channels(subscribers: map<SubId, Id>, queues: Queues, closed: set<SubId>, sent: Queues)

  // An envelope as posted, with the room as it was then.
  datatype Posting = Posting(envelope: Envelope, room: Room)

  // When a subscription ended, counted in postings, and why if anyone said so.
  datatype End = End(at: nat, reason: Option<Ending>)

  datatype Stream = Stream(player: Id, first: Message, start: nat, end: Option<End>)

  function Personalized(envelope: Envelope, r: Room, p: Id): (m: Message)
    ensures !m.EndMessage?
  {
    match envelope
    case StateEnvelope(snapshot) => StateMessage(snapshot, PrivateViewOf(r, p))
    case ChatEnvelope(sender, name, message) => ChatMessage(sender, name, message)
  }

  ghost function EnvelopeOf(reply: Reply, r: Room): Envelope {
    match reply
    case StateReply => StateEnvelope(SnapshotOf(r))
    case ChatReply(sender, name, message) => ChatEnvelope(sender, name, message)
  }

  function Copy(posting: Posting, p: Id): Message {
    Personalized(posting.envelope, posting.room, p)
  }

  function Copies(posted: seq<Posting>, p: Id): (copies: seq<Message>)
    ensures |copies| == |posted|
    ensures forall i :: 0 <= i < |posted| ==> copies[i] == Copy(posted[i], p)
  {
    seq(|posted|, i requires 0 <= i < |posted| => Copy(posted[i], p))
  }

  function Farewell(end: End): seq<Message> {
    if end.reason.Some? then [EndMessage(end.reason.value)] else []
  }

  predicate Fits(s: Stream, posted: seq<Posting>) {
    s.start <= if s.end.Some? then s.end.value.at else |posted|
  }

  // Everything sent on a stream's channel.
  function Told(s: Stream, posted: seq<Posting>): seq<Message>
    requires Fits(s, posted) && (s.end.Some? ==> s.end.value.at <= |posted|)
  {
    match s.end
    case None => [s.first] + Copies(posted[s.start..], s.player)
    case Some(end) => [s.first] + Copies(posted[s.start..end.at], s.player) + Farewell(end)
  }

  predicate IsTail(queue: seq<Message>, sent: seq<Message>) {
    |queue| <= |sent| && queue == sent[|sent| - |queue|..]
  }

  // The channel has been sent what the stream should be told, and holds the unread end of it.
  ghost predicate StreamOk(s: Stream, sent: seq<Message>, queue: seq<Message>, posted: seq<Posting>) {
    && Fits(s, posted) && (s.end.Some? ==> s.end.value.at <= |posted|)
    && !s.first.EndMessage?
    && sent == Told(s, posted)
    && IsTail(queue, sent)
  }

  function UpTo(posted: seq<Posting>, behind: bool): seq<Posting>
    requires behind ==> posted != []
  {
    if behind then posted[..|posted| - 1] else posted
  }

  // Channels are open exactly for the subscribers, and no queue is longer than it may be.
  ghost predicate IsSane(c: Channels) {
    && c.sent.Keys == c.queues.Keys && c.subscribers.Keys <= c.queues.Keys
    && c.closed == c.queues.Keys - c.subscribers.Keys
    && (forall id :: id in c.queues ==> |c.queues[id]| <= QUEUE_CAPACITY)
  }

  // Those behind have yet to get the last posting.
  ghost predicate ChannelsOk(c: Channels, streams: map<SubId, Stream>, posted: seq<Posting>, behind: set<SubId>) {
    && IsSane(c) && streams.Keys == c.queues.Keys
    && behind <= c.subscribers.Keys && (behind != {} ==> posted != [])
    && (forall id :: id in c.queues ==> (streams[id].end.None? <==> id in c.subscribers))
    && (forall id :: id in c.subscribers ==> streams[id].player == c.subscribers[id])
    && (forall id :: id in c.queues ==> StreamOk(streams[id], c.sent[id], c.queues[id], UpTo(posted, id in behind)))
  }

  // Nobody has two subscriptions.
  ghost predicate OneEach(subscribers: map<SubId, Id>) {
    forall a, b :: a in subscribers && b in subscribers && subscribers[a] == subscribers[b] ==> a == b
  }

  // ---- What is done to a channel --------------------------------------------------------------

  function Delivered(c: Channels, id: SubId, m: Message): Channels
    requires id in c.queues && id in c.sent
  {
    c.(queues := c.queues[id := c.queues[id] + [m]], sent := c.sent[id := c.sent[id] + [m]])
  }

  function GivenUp(c: Channels, id: SubId): Channels {
    c.(subscribers := c.subscribers - {id}, closed := c.closed + {id})
  }

  // What was unread is thrown away.
  function EndedWith(c: Channels, id: SubId, reason: Ending): Channels
    requires id in c.sent
  {
    GivenUp(c, id).(queues := c.queues[id := [EndMessage(reason)]], sent := c.sent[id := c.sent[id] + [EndMessage(reason)]])
  }

  function Opened(c: Channels, id: SubId, p: Id, first: Message): Channels {
    c.(subscribers := c.subscribers[id := p], queues := c.queues[id := [first]], sent := c.sent[id := [first]])
  }

  function Cut(streams: map<SubId, Stream>, id: SubId, at: nat, reason: Option<Ending>): map<SubId, Stream>
    requires id in streams
  {
    streams[id := streams[id].(end := Some(End(at, reason)))]
  }

  lemma OpenIsKnown(c: Channels, streams: map<SubId, Stream>, posted: seq<Posting>, behind: set<SubId>, id: SubId)
    requires ChannelsOk(c, streams, posted, behind) && id in c.subscribers
    ensures IsSane(c) && id in c.queues && id in c.sent && id in streams && id !in c.closed
  {
    hide StreamOk;
  }

  // ---- One channel ----------------------------------------------------------------------------

  lemma TailGrows(queue: seq<Message>, sent: seq<Message>, m: Message)
    requires IsTail(queue, sent)
    ensures IsTail(queue + [m], sent + [m])
  {
  }

  lemma TailShrinks(queue: seq<Message>, sent: seq<Message>)
    requires IsTail(queue, sent) && queue != []
    ensures IsTail(queue[1..], sent)
  {
  }

  lemma LastIsTail(sent: seq<Message>, m: Message)
    ensures IsTail([m], sent + [m])
  {
  }

  lemma OneMoreCopy(posted: seq<Posting>, x: Posting, start: nat, p: Id)
    requires start <= |posted|
    ensures Copies((posted + [x])[start..], p) == Copies(posted[start..], p) + [Copy(x, p)]
  {
    assert (posted + [x])[start..] == posted[start..] + [x];
  }

  lemma PostedToOpen(s: Stream, sent: seq<Message>, queue: seq<Message>, posted: seq<Posting>, x: Posting)
    requires StreamOk(s, sent, queue, posted) && s.end.None?
    ensures StreamOk(s, sent + [Copy(x, s.player)], queue + [Copy(x, s.player)], posted + [x])
  {
    hide Copies, IsTail, Copy;
    OneMoreCopy(posted, x, s.start, s.player);
    TailGrows(queue, sent, Copy(x, s.player));
    assert Told(s, posted + [x]) == Told(s, posted) + [Copy(x, s.player)];
    hide Told;
  }

  lemma PostedToClosed(s: Stream, sent: seq<Message>, queue: seq<Message>, posted: seq<Posting>, x: Posting)
    requires StreamOk(s, sent, queue, posted) && s.end.Some?
    ensures StreamOk(s, sent, queue, posted + [x])
  {
    hide Copies, IsTail;
    assert (posted + [x])[s.start..s.end.value.at] == posted[s.start..s.end.value.at];
  }

  // The channel is closed before the posting it had no room for.
  lemma DroppedStream(s: Stream, sent: seq<Message>, queue: seq<Message>, posted: seq<Posting>, x: Posting)
    requires StreamOk(s, sent, queue, posted) && s.end.None?
    ensures StreamOk(s.(end := Some(End(|posted|, None))), sent, queue, posted + [x])
  {
    hide Copies, IsTail;
    assert (posted + [x])[s.start..|posted|] == posted[s.start..];
  }

  lemma EndedStream(s: Stream, sent: seq<Message>, queue: seq<Message>, posted: seq<Posting>, reason: Ending)
    requires StreamOk(s, sent, queue, posted) && s.end.None?
    ensures StreamOk(s.(end := Some(End(|posted|, Some(reason)))), sent + [EndMessage(reason)], [EndMessage(reason)], posted)
  {
    hide Copies, IsTail, Copy;
    var ended := s.(end := Some(End(|posted|, Some(reason))));
    assert posted[s.start..|posted|] == posted[s.start..];
    assert Told(ended, posted) == Told(s, posted) + [EndMessage(reason)];
    hide Told;
    LastIsTail(sent, EndMessage(reason));
  }

  lemma SilentEnd(s: Stream, sent: seq<Message>, queue: seq<Message>, posted: seq<Posting>)
    requires StreamOk(s, sent, queue, posted) && s.end.None?
    ensures StreamOk(s.(end := Some(End(|posted|, None))), sent, queue, posted)
  {
    hide Copies, IsTail;
    assert posted[s.start..|posted|] == posted[s.start..];
  }

  lemma NewStream(p: Id, first: Message, posted: seq<Posting>)
    requires !first.EndMessage?
    ensures StreamOk(Stream(p, first, |posted|, None), [first], [first], posted)
  {
    assert posted[|posted|..] == [];
  }

  // ---- All channels ---------------------------------------------------------------------------

  lemma PostingLeavesAllBehind(c: Channels, streams: map<SubId, Stream>, posted: seq<Posting>, x: Posting)
    requires ChannelsOk(c, streams, posted, {})
    ensures ChannelsOk(c, streams, posted + [x], c.subscribers.Keys)
  {
    hide StreamOk;
    assert (posted + [x])[..|posted|] == posted;
    forall id | id in c.queues
      ensures StreamOk(streams[id], c.sent[id], c.queues[id], UpTo(posted + [x], id in c.subscribers.Keys))
    {
      assert StreamOk(streams[id], c.sent[id], c.queues[id], UpTo(posted, false));
      if id !in c.subscribers {
        PostedToClosed(streams[id], c.sent[id], c.queues[id], posted, x);
      }
    }
  }

  lemma CatchesUp(c: Channels, streams: map<SubId, Stream>, posted: seq<Posting>, behind: set<SubId>, id: SubId)
    requires ChannelsOk(c, streams, posted, behind) && id in behind && |c.queues[id]| < QUEUE_CAPACITY
    ensures ChannelsOk(Delivered(c, id, Copy(posted[|posted| - 1], c.subscribers[id])), streams, posted, behind - {id})
  {
    hide StreamOk;
    var was, x := posted[..|posted| - 1], posted[|posted| - 1];
    assert was + [x] == posted;
    assert StreamOk(streams[id], c.sent[id], c.queues[id], UpTo(posted, true));
    PostedToOpen(streams[id], c.sent[id], c.queues[id], was, x);
  }

  lemma DropsOut(c: Channels, streams: map<SubId, Stream>, posted: seq<Posting>, behind: set<SubId>, id: SubId)
    requires ChannelsOk(c, streams, posted, behind) && id in behind
    ensures ChannelsOk(GivenUp(c, id), Cut(streams, id, |posted| - 1, None), posted, behind - {id})
  {
    hide StreamOk;
    var was, x := posted[..|posted| - 1], posted[|posted| - 1];
    assert was + [x] == posted;
    assert StreamOk(streams[id], c.sent[id], c.queues[id], UpTo(posted, true));
    DroppedStream(streams[id], c.sent[id], c.queues[id], was, x);
  }

  lemma IsEnded(c: Channels, streams: map<SubId, Stream>, posted: seq<Posting>, id: SubId, reason: Ending)
    requires ChannelsOk(c, streams, posted, {}) && id in c.subscribers
    ensures ChannelsOk(EndedWith(c, id, reason), Cut(streams, id, |posted|, Some(reason)), posted, {})
  {
    hide StreamOk;
    assert StreamOk(streams[id], c.sent[id], c.queues[id], UpTo(posted, false));
    EndedStream(streams[id], c.sent[id], c.queues[id], posted, reason);
  }

  lemma IsGivenUp(c: Channels, streams: map<SubId, Stream>, posted: seq<Posting>, id: SubId)
    requires ChannelsOk(c, streams, posted, {}) && id in c.subscribers
    ensures ChannelsOk(GivenUp(c, id), Cut(streams, id, |posted|, None), posted, {})
  {
    hide StreamOk;
    assert StreamOk(streams[id], c.sent[id], c.queues[id], UpTo(posted, false));
    SilentEnd(streams[id], c.sent[id], c.queues[id], posted);
  }

  lemma IsOpened(c: Channels, streams: map<SubId, Stream>, posted: seq<Posting>, id: SubId, p: Id, first: Message)
    requires ChannelsOk(c, streams, posted, {}) && id !in c.queues && !first.EndMessage?
    ensures ChannelsOk(Opened(c, id, p, first), streams[id := Stream(p, first, |posted|, None)], posted, {})
  {
    hide StreamOk;
    NewStream(p, first, posted);
    var next, all := Opened(c, id, p, first), streams[id := Stream(p, first, |posted|, None)];
    assert next.queues.Keys == c.queues.Keys + {id} && next.sent.Keys == c.sent.Keys + {id};
    assert next.closed == next.queues.Keys - next.subscribers.Keys;
    assert forall k :: k in next.queues ==> |next.queues[k]| <= QUEUE_CAPACITY;
    forall other | other in next.queues ensures StreamOk(all[other], next.sent[other], next.queues[other], UpTo(posted, false)) {
      if other != id {
        assert StreamOk(streams[other], c.sent[other], c.queues[other], UpTo(posted, false));
      }
    }
  }

  lemma StreamIsRead(s: Stream, sent: seq<Message>, queue: seq<Message>, posted: seq<Posting>)
    requires StreamOk(s, sent, queue, posted) && queue != []
    ensures StreamOk(s, sent, queue[1..], posted)
  {
    hide Told, IsTail;
    TailShrinks(queue, sent);
  }

  lemma IsRead(c: Channels, streams: map<SubId, Stream>, posted: seq<Posting>, id: SubId)
    requires ChannelsOk(c, streams, posted, {}) && id in c.queues && c.queues[id] != []
    ensures ChannelsOk(c.(queues := c.queues[id := c.queues[id][1..]]), streams, posted, {})
  {
    hide StreamOk;
    assert StreamOk(streams[id], c.sent[id], c.queues[id], UpTo(posted, false));
    StreamIsRead(streams[id], c.sent[id], c.queues[id], posted);
  }

  // ---- What a reader can count on -------------------------------------------------------------

  lemma TalkIsInOrder(s: Stream, posted: seq<Posting>)
    requires s.end.None? && s.start <= |posted| && !s.first.EndMessage?
    ensures |Told(s, posted)| == 1 + |posted| - s.start
    ensures forall k :: s.start <= k < |posted| ==> Told(s, posted)[1 + k - s.start] == Copy(posted[k], s.player)
    ensures forall i :: 0 <= i < |Told(s, posted)| ==> !Told(s, posted)[i].EndMessage?
  {
    var copies := Copies(posted[s.start..], s.player);
    var told := Told(s, posted);
    assert told == [s.first] + copies;
    hide Told, Copies;
    forall k | s.start <= k < |posted| ensures told[1 + k - s.start] == Copy(posted[k], s.player) {
      var j := k - s.start;
      assert posted[s.start..][j] == posted[k];
      assert told[1 + j] == copies[j];
    }
    forall i | 0 <= i < |told| ensures !told[i].EndMessage? {
      assert i > 0 ==> told[i] == copies[i - 1];
    }
  }

  // An open channel has been sent its first message and a copy of everything posted since, in order,
  // and no word of an ending.
  lemma OpenChannelsMissNothing(c: Channels, streams: map<SubId, Stream>, posted: seq<Posting>, id: SubId)
    requires ChannelsOk(c, streams, posted, {}) && id in c.subscribers
    ensures id !in c.closed && streams[id].start <= |posted|
    ensures |c.sent[id]| == 1 + |posted| - streams[id].start
    ensures forall k :: streams[id].start <= k < |posted| ==> c.sent[id][1 + k - streams[id].start] == Copy(posted[k], c.subscribers[id])
    ensures forall i :: 0 <= i < |c.sent[id]| ==> !c.sent[id][i].EndMessage?
  {
    assert StreamOk(streams[id], c.sent[id], c.queues[id], UpTo(posted, false));
    TalkIsInOrder(streams[id], posted);
    hide Copies, Told, Copy, IsTail;
  }

  // A closed channel has been sent an unbroken stretch of the same, and then exactly one word of its
  // ending if it was ended with a reason, none if it was dropped or given up.
  lemma ClosedChannelsEndOnce(c: Channels, streams: map<SubId, Stream>, posted: seq<Posting>, id: SubId)
    requires ChannelsOk(c, streams, posted, {}) && id in c.closed
    ensures id !in c.subscribers && streams[id].end.Some?
    ensures var end := streams[id].end.value;
      var talk := [streams[id].first] + Copies(posted[streams[id].start..end.at], streams[id].player);
      && streams[id].start <= end.at <= |posted|
      && (forall i :: 0 <= i < |talk| ==> !talk[i].EndMessage?)
      && c.sent[id] == talk + if end.reason.Some? then [EndMessage(end.reason.value)] else []
  {
    assert StreamOk(streams[id], c.sent[id], c.queues[id], UpTo(posted, false));
    var s := streams[id];
    var talk := [s.first] + Copies(posted[s.start..s.end.value.at], s.player);
    assert c.sent[id] == talk + Farewell(s.end.value);
    assert forall i :: 0 <= i < |talk| ==> !talk[i].EndMessage?;
    hide Copies, Told;
  }

  // ---- What postings make of the channels -----------------------------------------------------

  predicate Remains(before: map<SubId, Id>, after: map<SubId, Id>) {
    forall id :: id in after ==> id in before && after[id] == before[id]
  }

  // The participants whose subscriptions are gone.
  function Lost(before: map<SubId, Id>, after: map<SubId, Id>): set<Id> {
    set id | id in before && id !in after :: before[id]
  }

  // As many of the postings as a queue has room for.
  function Fitting(queue: seq<Message>, news: seq<Posting>): seq<Posting>
    requires |queue| <= QUEUE_CAPACITY
  {
    if |queue| + |news| <= QUEUE_CAPACITY then news else news[..QUEUE_CAPACITY - |queue|]
  }

  // A subscriber keeps its subscription exactly if its queue has room for all of them, and has been
  // sent, in order, as many as fit.
  ghost predicate Served(before: Channels, after: Channels, id: SubId, news: seq<Posting>) {
    && id in before.subscribers && id in before.queues && id in before.sent && id in after.queues && id in after.sent
    && |before.queues[id]| <= QUEUE_CAPACITY
    && (id in after.subscribers <==> |before.queues[id]| + |news| <= QUEUE_CAPACITY)
    && var copies := Copies(Fitting(before.queues[id], news), before.subscribers[id]);
       after.queues[id] == before.queues[id] + copies && after.sent[id] == before.sent[id] + copies
  }

  // Closed channels stay closed, and nothing is sent on them.
  ghost predicate ClosedKept(before: Channels, after: Channels) {
    && before.closed <= after.closed
    && (forall id :: id in before.closed ==>
        && (id in before.queues ==> id in after.queues && after.queues[id] == before.queues[id])
        && (id in before.sent ==> id in after.sent && after.sent[id] == before.sent[id]))
  }

  ghost predicate AllServed(before: Channels, after: Channels, news: seq<Posting>) {
    && Remains(before.subscribers, after.subscribers)
    && ClosedKept(before, after) && after.queues.Keys == before.queues.Keys
    && forall id :: id in before.subscribers ==> Served(before, after, id, news)
  }

  lemma KeptTwice(a: Channels, b: Channels, c: Channels)
    requires ClosedKept(a, b) && ClosedKept(b, c)
    ensures ClosedKept(a, c)
  {
  }

  lemma NothingPosted(c: Channels)
    requires IsSane(c)
    ensures AllServed(c, c, [])
  {
    hide Copies;
    forall id | id in c.subscribers ensures Served(c, c, id, []) {
      assert Copies([], c.subscribers[id]) == [];
      assert c.queues[id] + [] == c.queues[id] && c.sent[id] + [] == c.sent[id];
    }
  }

  lemma CopiesJoin(a: seq<Posting>, b: seq<Posting>, p: Id)
    ensures Copies(a + b, p) == Copies(a, p) + Copies(b, p)
  {
    hide Copy;
  }

  lemma ServedThenServed(a: Channels, b: Channels, c: Channels, id: SubId, first: seq<Posting>, more: seq<Posting>)
    requires Served(a, b, id, first) && Served(b, c, id, more) && b.subscribers[id] == a.subscribers[id]
    ensures Served(a, c, id, first + more)
  {
    hide Copies;
    var p, queue := a.subscribers[id], a.queues[id];
    CopiesJoin(first, Fitting(b.queues[id], more), p);
    assert Fitting(queue, first) == first;
    assert Fitting(queue, first + more) == first + Fitting(b.queues[id], more);
    assert queue + (Copies(first, p) + Copies(Fitting(b.queues[id], more), p)) == queue + Copies(first, p) + Copies(Fitting(b.queues[id], more), p);
    assert a.sent[id] + (Copies(first, p) + Copies(Fitting(b.queues[id], more), p)) == a.sent[id] + Copies(first, p) + Copies(Fitting(b.queues[id], more), p);
  }

  lemma ServedThenGone(a: Channels, b: Channels, c: Channels, id: SubId, first: seq<Posting>, more: seq<Posting>)
    requires Served(a, b, id, first) && id !in b.subscribers && id !in c.subscribers && id in c.queues && id in c.sent
    requires c.queues[id] == b.queues[id] && c.sent[id] == b.sent[id]
    ensures Served(a, c, id, first + more)
  {
    hide Copies;
    assert Fitting(a.queues[id], first + more) == Fitting(a.queues[id], first);
  }

  lemma AllServedTwice(a: Channels, b: Channels, c: Channels, first: seq<Posting>, more: seq<Posting>)
    requires IsSane(b) && AllServed(a, b, first) && AllServed(b, c, more)
    ensures AllServed(a, c, first + more)
  {
    hide Served;
    KeptTwice(a, b, c);
    forall id | id in a.subscribers ensures Served(a, c, id, first + more) {
      if id in b.subscribers {
        ServedThenServed(a, b, c, id, first, more);
      } else {
        ServedIsKnown(a, b, id, first);
        assert id in b.closed;
        ServedThenGone(a, b, c, id, first, more);
      }
    }
  }

  lemma ServedIsKnown(a: Channels, b: Channels, id: SubId, news: seq<Posting>)
    requires Served(a, b, id, news)
    ensures id in b.queues && id in b.sent
  {
  }

  // ---- One posting, subscriber by subscriber --------------------------------------------------

  // Those still waiting have their channels as they were; the others have been served.
  ghost predicate PartlyServed(before: Channels, after: Channels, x: Posting, waiting: set<SubId>) {
    && Remains(before.subscribers, after.subscribers)
    && ClosedKept(before, after) && after.queues.Keys == before.queues.Keys
    && waiting <= after.subscribers.Keys
    && (forall id :: id in before.subscribers && id !in waiting ==> Served(before, after, id, [x]))
    && (forall id :: id in waiting ==>
        && id in before.queues && id in after.queues && after.queues[id] == before.queues[id]
        && id in before.sent && id in after.sent && after.sent[id] == before.sent[id])
  }

  // The next one gets its copy if there is room for it, and is given up otherwise.
  function ServedNow(c: Channels, x: Posting, id: SubId): Channels
    requires id in c.subscribers && id in c.queues && id in c.sent
  {
    if |c.queues[id]| < QUEUE_CAPACITY then Delivered(c, id, Copy(x, c.subscribers[id])) else GivenUp(c, id)
  }

  lemma OneMoreIsServed(before: Channels, now: Channels, x: Posting, waiting: set<SubId>, id: SubId)
    requires IsSane(before) && IsSane(now) && PartlyServed(before, now, x, waiting) && id in waiting
    ensures PartlyServed(before, ServedNow(now, x, id), x, waiting - {id})
  {
    hide Served;
    var next := ServedNow(now, x, id);
    ServesOne(before, now, x, id);
    forall other | other in before.subscribers && other !in waiting ensures Served(before, next, other, [x]) {
      OthersServed(before, now, x, id, other);
    }
    hide Copy, Delivered, GivenUp;
    StillClosed(before, now, x, id);
    hide IsSane, ClosedKept;
  }

  lemma OthersServed(before: Channels, now: Channels, x: Posting, id: SubId, other: SubId)
    requires id in now.subscribers && id in now.queues && id in now.sent
    requires Served(before, now, other, [x]) && other != id
    ensures Served(before, ServedNow(now, x, id), other, [x])
  {
    hide Copy, Copies;
  }

  lemma StillClosed(before: Channels, now: Channels, x: Posting, id: SubId)
    requires IsSane(before) && ClosedKept(before, now) && id in before.subscribers
    requires id in now.subscribers && id in now.queues && id in now.sent
    ensures ClosedKept(before, ServedNow(now, x, id))
  {
    hide Copy;
  }

  lemma ServesOne(before: Channels, now: Channels, x: Posting, id: SubId)
    requires IsSane(before) && id in before.subscribers && id in now.subscribers && now.subscribers[id] == before.subscribers[id]
    requires id in now.queues && id in now.sent && now.queues[id] == before.queues[id] && now.sent[id] == before.sent[id]
    ensures Served(before, ServedNow(now, x, id), id, [x])
  {
    var p := before.subscribers[id];
    assert Copies([x], p) == [Copy(x, p)] && Copies([], p) == [];
    hide Copies, Copy;
    if |now.queues[id]| == QUEUE_CAPACITY {
      assert [x][..0] == [];
      assert before.queues[id] + [] == before.queues[id] && before.sent[id] + [] == before.sent[id];
    }
  }

  lemma AllWaiting(c: Channels, x: Posting)
    requires IsSane(c)
    ensures PartlyServed(c, c, x, c.subscribers.Keys)
  {
  }

  lemma NobodyWaits(before: Channels, after: Channels, x: Posting)
    requires PartlyServed(before, after, x, {})
    ensures AllServed(before, after, [x])
  {
    hide Served;
  }

  // ---- Seats given up -------------------------------------------------------------------------

  // A participant disconnected by the actor, and the clock's reading then.
  datatype Drop = Drop(player: Id, at: int)

  // The room after one such disconnection, if it knows the participant.
  ghost function AfterDrop(r: Room, d: Drop): Room {
    match AfterDisconnect(r, d.player, d.at)
    case Rejected(_) => r
    case Accepted(s, _) => s
  }

  ghost function AfterDrops(r: Room, drops: seq<Drop>): Room {
    if drops == [] then r else AfterDrop(AfterDrops(r, drops[..|drops| - 1]), drops[|drops| - 1])
  }

  // What is posted of it: the room as it is then, if it knows the participant.
  ghost function NewsOf(r: Room, d: Drop): seq<Posting> {
    if IsSeated(r, d.player) then [Posting(StateEnvelope(SnapshotOf(AfterDrop(r, d))), AfterDrop(r, d))] else []
  }

  ghost function News(r: Room, drops: seq<Drop>): seq<Posting> {
    if drops == [] then []
    else News(r, drops[..|drops| - 1]) + NewsOf(AfterDrops(r, drops[..|drops| - 1]), drops[|drops| - 1])
  }

  lemma {:induction false} DropsJoin(r: Room, a: seq<Drop>, b: seq<Drop>)
    ensures AfterDrops(r, a + b) == AfterDrops(AfterDrops(r, a), b)
    ensures News(r, a + b) == News(r, a) + News(AfterDrops(r, a), b)
    decreases |b|
  {
    hide AfterDrop, NewsOf;
    if b == [] {
      assert a + b == a;
    } else {
      assert (a + b)[..|a + b| - 1] == a + b[..|b| - 1];
      DropsJoin(r, a, b[..|b| - 1]);
    }
  }

  lemma OneDrop(r: Room, d: Drop)
    ensures AfterDrops(r, [d]) == AfterDrop(r, d) && News(r, [d]) == NewsOf(r, d)
  {
    assert [d][..0] == [];
    assert AfterDrops(r, []) == r && News(r, []) == [];
    hide AfterDrop, NewsOf;
  }

  // These are the participants lost, each once.
  ghost predicate DropsAre(drops: seq<Drop>, lost: set<Id>) {
    && (forall i, j :: 0 <= i < j < |drops| ==> drops[i].player != drops[j].player)
    && (forall i :: 0 <= i < |drops| ==> drops[i].player in lost)
    && (forall p :: p in lost ==> exists i :: 0 <= i < |drops| && drops[i].player == p)
  }

  lemma DropsAreBoth(a: seq<Drop>, b: seq<Drop>, lost: set<Id>, more: set<Id>)
    requires DropsAre(a, lost) && DropsAre(b, more) && lost !! more
    ensures DropsAre(a + b, lost + more)
  {
    var all := a + b;
    forall p | p in lost + more ensures exists i :: 0 <= i < |all| && all[i].player == p {
      if p in lost {
        var i :| 0 <= i < |a| && a[i].player == p;
        assert all[i].player == p;
      } else {
        var i :| 0 <= i < |b| && b[i].player == p;
        assert all[|a| + i].player == p;
      }
    }
  }

  lemma JustOneDrop(d: Drop)
    ensures DropsAre([d], {d.player})
  {
    assert [d][0] == d;
  }

  // s is r with these participants disconnected; the owner may have been succeeded.
  ghost predicate Dropped(r: Room, s: Room, gone: set<Id>) {
    && s == r.(players := s.players, spectators := s.spectators, owner := s.owner, updatedAt := s.updatedAt)
    && s.players.Keys == r.players.Keys && s.spectators.Keys == r.spectators.Keys
    && (forall p :: p in r.players ==>
        s.players[p] == if p in gone then r.players[p].(connected := false, afk := false) else r.players[p])
    && (forall p :: p in r.spectators ==>
        s.spectators[p] == if p in gone then r.spectators[p].(connected := false, afk := false) else r.spectators[p])
  }

  lemma DroppedTwice(r: Room, s: Room, t: Room, a: set<Id>, b: set<Id>)
    requires Dropped(r, s, a) && Dropped(s, t, b)
    ensures Dropped(r, t, a + b)
  {
  }

  lemma DisconnectingPlayer(r: Room, p: Id)
    requires p in r.players && p !in r.spectators
    ensures forall at: int :: Dropped(r, PlayerDropped(r, p).(updatedAt := at), {p})
  {
    hide ConnectedOwner;
  }

  lemma DisconnectingSpectator(r: Room, p: Id)
    requires p in r.spectators && p !in r.players
    ensures forall at: int :: Dropped(r, SpectatorDropped(r, p).(updatedAt := at), {p})
  {
  }

  lemma DisconnectingDrops(r: Room, d: Drop)
    requires r.players.Keys !! r.spectators.Keys
    ensures Dropped(r, AfterDrop(r, d), {d.player})
  {
    hide PlayerDropped, SpectatorDropped;
    if d.player in r.players {
      DisconnectingPlayer(r, d.player);
      hide Dropped;
    } else if d.player in r.spectators {
      DisconnectingSpectator(r, d.player);
      hide Dropped;
    }
  }

  function PlayersOf(drops: seq<Drop>): set<Id> {
    set d | d in drops :: d.player
  }

  // However they are nested, the disconnections of a broadcast leave the room as it was but for exactly
  // those participants, who are connected no more, and a successor to the owner.
  lemma {:induction false} DropsDisconnectExactly(r: Room, drops: seq<Drop>)
    requires r.players.Keys !! r.spectators.Keys
    ensures Dropped(r, AfterDrops(r, drops), PlayersOf(drops))
  {
    hide AfterDrop;
    if drops == [] {
    } else {
      var init, last := drops[..|drops| - 1], drops[|drops| - 1];
      DropsDisconnectExactly(r, init);
      DisconnectingDrops(AfterDrops(r, init), last);
      assert drops == init + [last];
      assert PlayersOf(drops) == PlayersOf(init) + {last.player};
      hide Dropped;
      DroppedTwice(r, AfterDrops(r, init), AfterDrops(r, drops), PlayersOf(init), {last.player});
    }
  }

  lemma SeatsStay(r: Room, drops: seq<Drop>, p: Id)
    requires r.players.Keys !! r.spectators.Keys && IsSeated(r, p)
    ensures IsSeated(AfterDrops(r, drops), p)
  {
    DropsDisconnectExactly(r, drops);
    hide AfterDrops;
  }

  // Of seated participants every disconnection is posted, in order, each with the room right after it;
  // so the last posting shows the room as it is left.
  lemma {:induction false} EveryDropIsPosted(r: Room, drops: seq<Drop>)
    requires r.players.Keys !! r.spectators.Keys
    requires forall i :: 0 <= i < |drops| ==> IsSeated(r, drops[i].player)
    ensures |News(r, drops)| == |drops|
    ensures forall i :: 0 <= i < |drops| ==>
      News(r, drops)[i] == Posting(StateEnvelope(SnapshotOf(AfterDrops(r, drops[..i + 1]))), AfterDrops(r, drops[..i + 1]))
  {
    hide AfterDrop, SnapshotOf, IsSeated;
    if drops == [] {
    } else {
      var init, last := drops[..|drops| - 1], drops[|drops| - 1];
      EveryDropIsPosted(r, init);
      SeatsStay(r, init, last.player);
      assert drops[..|drops|] == drops;
      forall i | 0 <= i < |drops|
        ensures News(r, drops)[i] == Posting(StateEnvelope(SnapshotOf(AfterDrops(r, drops[..i + 1]))), AfterDrops(r, drops[..i + 1]))
      {
        if i < |init| {
          assert init[..i + 1] == drops[..i + 1];
        }
      }
    }
  }

  // ---- A broadcast ----------------------------------------------------------------------------

  // The posting and then the news of these disconnections; every subscriber is served all of that.
  ghost predicate IsPosted(before: Channels, after: Channels, x: Posting, drops: seq<Drop>, news: seq<Posting>, left: Room) {
    && news == [x] + News(x.room, drops)
    && left == AfterDrops(x.room, drops)
    && AllServed(before, after, news)
  }

  lemma JustPosted(before: Channels, after: Channels, x: Posting)
    requires AllServed(before, after, [x])
    ensures IsPosted(before, after, x, [], [x], x.room)
  {
    hide AllServed;
  }

  lemma PostingGoesOn(a: Channels, b: Channels, c: Channels, x: Posting, drops: seq<Drop>, more: seq<Drop>, news: seq<Posting>, left: Room)
    requires IsSane(b) && IsPosted(a, b, x, drops, news, left) && AllServed(b, c, News(left, more))
    ensures IsPosted(a, c, x, drops + more, news + News(left, more), AfterDrops(left, more))
  {
    hide AllServed, IsSane, News, AfterDrops;
    DropsJoin(x.room, drops, more);
    AllServedTwice(a, b, c, news, News(left, more));
  }

  // The envelope is posted and then the news of everyone disconnected for it; every subscriber is served
  // all of that, and exactly those with no room for it are disconnected, each once.
  ghost predicate IsBroadcast(before: Channels, after: Channels, room: Room, envelope: Envelope, drops: seq<Drop>, news: seq<Posting>, left: Room) {
    && IsPosted(before, after, Posting(envelope, room), drops, news, left)
    && DropsAre(drops, Lost(before.subscribers, after.subscribers))
  }
}
