// Reliable events end to end: the page's queue (internal/webui/static/app.js), connections that lose
// whatever was on the way when they break, and the server's answer to each numbered event
// (internal/ws/handler.go) from the cursor of the sender's seat (internal/room/state.go).

module Delivery {
  import opened Rules
  import opened Browser

  // Read is a connection whose events the server has begun to read; it stays so when a newer one has
  // taken over the seat.
  datatype LinkPhase = Unread | Read | Broken

  // What is on the way in either direction.
  datatype Link = Link(toServer: seq<Pending>, toPage: seq<Ack>, phase: LinkPhase)

  // cursor belongs to the seat. subscribed is the connection that holds the seat. answers and applied
  // are what the server has answered and what it has applied, in order.
  datatype Server = Server(cursor: int, subscribed: Option<nat>, answers: seq<Ack>, applied: seq<Pending>)

  // issued holds the event behind every number the page has given out.
  datatype World = World(page: Page, socket: Option<nat>, links: seq<Link>, server: Server, issued: seq<Body>)

  const START := World(Page([], 1, None, false), None, [], Server(0, None, [], []), [])

  // TurnAway is the rate limiter's or the chat filter's answer, given before the room is asked. The
  // room accepts or refuses what it is asked; the filter may have put other words in a chat message.
  datatype Judgement = TurnAway | RoomAccepts(wording: Option<string>) | RoomRefuses

  datatype Move =
    | Act(body: Body)
    | Connect
    | Disconnect
    | TakeAck
    | TakeState
    | Reload
    | Take(link: nat)
    | Lose(link: nat)
    | Answer(link: nat, judgement: Judgement, acked: bool)

  // ---- The page's moves -----------------------------------------------------------------------

  function Sent(links: seq<Link>, k: nat, event: Pending): seq<Link>
    requires k < |links|
  {
    if links[k].phase == Broken then links else links[k := links[k].(toServer := links[k].toServer + [event])]
  }

  predicate SocketOk(w: World) {
    (w.page.open <==> w.socket.Some?) && (w.socket.Some? ==> w.socket.value < |w.links|)
  }

  // Numbers stay below the greatest a browser can count to.
  predicate CanAct(w: World) {
    SocketOk(w) && MaySend(w.page) && w.page.next < MAX_SAFE_INTEGER
  }

  function Acted(w: World, body: Body): World
    requires CanAct(w)
  {
    w.(page := SentEvent(w.page, body), links := Sent(w.links, w.socket.value, Pending(w.page.next, body)), issued := w.issued + [body])
  }

  // A new connection starts with everything pending.
  function Connected(w: World): World {
    w.(page := w.page.(open := true), socket := Some(|w.links|), links := w.links + [Link(w.page.pending, [], Unread)])
  }

  function Disconnected(w: World): World {
    w.(page := w.page.(open := false), socket := None)
  }

  // The page comes back as the session stored it. Without one it would come back as a newcomer, on
  // another seat.
  ghost function Reloaded(w: World): World {
    w.(page := Rejoined(w.page.stored), socket := None)
  }

  predicate CanTakeAck(w: World) {
    SocketOk(w) && w.socket.Some? && w.links[w.socket.value].toPage != []
  }

  function AckTaken(w: World): World
    requires CanTakeAck(w)
  {
    var k := w.socket.value;
    var link := w.links[k];
    w.(page := Acknowledged(w.page, link.toPage[0]), links := w.links[k := link.(toPage := link.toPage[1..])])
  }

  // ---- The server's moves ---------------------------------------------------------------------

  // The status the page is told, and the seat's cursor afterwards.
  function Decide(cursor: int, sequence: int, judgement: Judgement): (Status, int) {
    if judgement == TurnAway then (Rejected, cursor)
    else if sequence <= cursor then (Duplicate, cursor)
    else if judgement.RoomAccepts? then (Applied, sequence)
    else (Rejected, cursor)
  }

  // The status the server answers the oldest event of a connection with, if any. One that cannot be
  // decoded gets no answer. On a connection that no longer holds the seat the room is not asked, but
  // an event can still be turned away.
  function Verdict(s: Server, k: nat, event: Pending, judgement: Judgement): Option<Status> {
    if !event.body.decodable then None
    else if judgement == TurnAway then Some(Rejected)
    else if s.subscribed != Some(k) then None
    else Some(Decide(s.cursor, event.sequence, judgement).0)
  }

  function Worded(body: Body, judgement: Judgement): Body {
    if body.chat && judgement.RoomAccepts? && judgement.wording.Some? then body.(text := judgement.wording.value) else body
  }

  function AfterAnswer(s: Server, event: Pending, status: Status, judgement: Judgement): Server {
    var answered := s.(answers := s.answers + [Ack(event.sequence, status)]);
    if status == Applied then
      answered.(cursor := event.sequence, applied := s.applied + [Pending(event.sequence, Worded(event.body, judgement))])
    else answered
  }

  predicate CanAnswer(w: World, k: nat) {
    k < |w.links| && w.links[k].phase == Read && w.links[k].toServer != []
  }

  // The oldest event of a connection is taken, and answered if it is to be; an answer that cannot be
  // queued breaks the connection.
  function Answered(w: World, k: nat, judgement: Judgement, acked: bool): World
    requires CanAnswer(w, k)
  {
    var link := w.links[k];
    var event, rest := link.toServer[0], link.toServer[1..];
    match Verdict(w.server, k, event, judgement)
    case None => w.(links := w.links[k := link.(toServer := rest)])
    case Some(status) =>
      w.(links := w.links[k := if acked then link.(toServer := rest, toPage := link.toPage + [Ack(event.sequence, status)])
                               else Link([], [], Broken)],
         server := AfterAnswer(w.server, event, status, judgement))
  }

  ghost function Next(w: World, move: Move): World {
    match move
    case Act(body) => if CanAct(w) then Acted(w, body) else w
    case Connect => Connected(w)
    case Disconnect => Disconnected(w)
    case TakeAck => if CanTakeAck(w) then AckTaken(w) else w
    case TakeState => if w.socket.Some? then w.(page := TokenTold(w.page)) else w
    case Reload => if w.page.stored.Some? then Reloaded(w) else w
    case Take(k) =>
      if k < |w.links| && w.links[k].phase == Unread then
        w.(links := w.links[k := w.links[k].(phase := Read)], server := w.server.(subscribed := Some(k)))
      else w
    case Lose(k) => if k < |w.links| then w.(links := w.links[k := Link([], [], Broken)]) else w
    case Answer(k, judgement, acked) => if CanAnswer(w, k) then Answered(w, k, judgement, acked) else w
  }

  ghost function Run(w: World, moves: seq<Move>): World {
    if moves == [] then w else Next(Run(w, moves[..|moves| - 1]), moves[|moves| - 1])
  }

  // ---- The invariant --------------------------------------------------------------------------

  function NumbersOf(events: seq<Pending>): set<int> {
    set x | x in events :: x.sequence
  }

  // The numbers the server has answered.
  function Decided(answers: seq<Ack>): set<int> {
    set a | a in answers :: a.sequence
  }

  predicate CannotBeRead(issued: seq<Body>, n: int) {
    1 <= n <= |issued| && !issued[n - 1].decodable
  }

  // A number is settled once the server has answered it, or if it never will because it cannot
  // decode the event.
  function Settled(issued: seq<Body>, decided: set<int>): set<int> {
    decided + set n | 1 <= n <= |issued| && CannotBeRead(issued, n)
  }

  // These are events the page gave out, under their own numbers, in order.
  ghost predicate AsIssued(events: seq<Pending>, issued: seq<Body>) {
    && (forall i, j :: 0 <= i < j < |events| ==> events[i].sequence < events[j].sequence)
    && (forall x :: x in events ==> 1 <= x.sequence <= |issued| && x.body == issued[x.sequence - 1])
  }

  // What was applied of an event given out: the event itself, or other words for a chat message.
  predicate Carries(given: Body, used: Body) {
    used == given || (given.chat && used == given.(text := used.text))
  }

  ghost predicate AsApplied(applied: seq<Pending>, issued: seq<Body>) {
    && (forall i, j :: 0 <= i < j < |applied| ==> applied[i].sequence < applied[j].sequence)
    && (forall x :: x in applied ==> 1 <= x.sequence <= |issued| && Carries(issued[x.sequence - 1], x.body))
  }

  // An event is answered as applied exactly if it was, and not as a duplicate the first time.
  ghost predicate AnswersOk(answers: seq<Ack>, applied: seq<Pending>) {
    && (forall n :: Ack(n, Applied) in answers <==> n in NumbersOf(applied))
    && (forall i :: 0 <= i < |answers| && answers[i].status == Duplicate ==> answers[i].sequence in Decided(answers[..i]))
  }

  // Nothing unsettled is skipped before any of the numbers.
  ghost predicate NoGaps(numbers: set<int>, settled: set<int>) {
    forall n, m :: m in numbers && 1 <= n < m ==> n in settled || n in numbers
  }

  ghost predicate AllThere(numbers: set<int>, settled: set<int>, next: int) {
    forall n :: 1 <= n < next ==> n in settled || n in numbers
  }

  predicate IsLive(link: Link, k: nat, subscribed: Option<nat>) {
    link.phase == Unread || (link.phase == Read && subscribed == Some(k))
  }

  predicate AcksOk(acks: seq<Ack>, answers: seq<Ack>) {
    forall a :: a in acks ==> a in answers
  }

  ghost predicate LinkOk(w: World, k: nat)
    requires k < |w.links|
  {
    var link, settled := w.links[k], Settled(w.issued, Decided(w.server.answers));
    && AsIssued(link.toServer, w.issued)
    && AcksOk(link.toPage, w.server.answers)
    && (IsLive(link, k, w.server.subscribed) ==>
        && NoGaps(NumbersOf(link.toServer), settled)
        && (w.socket == Some(k) ==> AllThere(NumbersOf(link.toServer), settled, w.page.next)))
  }

  ghost predicate PageOk(w: World) {
    && QueueOk(w.page.pending, w.page.next)
    && |w.issued| == w.page.next - 1
    && SocketOk(w)
    && (w.page.stored.Some? ==> w.page.stored == Some(Saved(w.page.pending, w.page.next)))
    && AsIssued(w.page.pending, w.issued)
    && AllThere(NumbersOf(w.page.pending), Decided(w.server.answers), w.page.next)
  }

  ghost predicate ServerHolds(s: Server, issued: seq<Body>, next: int) {
    && 0 <= s.cursor < next
    && (forall n :: n in Decided(s.answers) ==> 1 <= n < next)
    && (forall n :: 1 <= n <= s.cursor ==> n in Settled(issued, Decided(s.answers)))
    && AsApplied(s.applied, issued)
    && AnswersOk(s.answers, s.applied)
    && s.cursor == if s.applied == [] then 0 else s.applied[|s.applied| - 1].sequence
  }

  ghost predicate ServerOk(w: World) {
    ServerHolds(w.server, w.issued, w.page.next)
  }

  ghost predicate Ok(w: World) {
    PageOk(w) && ServerOk(w) && forall k :: 0 <= k < |w.links| ==> LinkOk(w, k)
  }

  // ---- Why every move keeps it ----------------------------------------------------------------

  lemma NumbersGrow(events: seq<Pending>, x: Pending)
    ensures NumbersOf(events + [x]) == NumbersOf(events) + {x.sequence}
  {
    assert forall y :: y in events + [x] <==> y in events || y == x;
  }

  lemma NumbersShrink(events: seq<Pending>, issued: seq<Body>)
    requires AsIssued(events, issued) && events != []
    ensures AsIssued(events[1..], issued) && NumbersOf(events[1..]) == NumbersOf(events) - {events[0].sequence}
    ensures forall n :: n in NumbersOf(events) ==> n >= events[0].sequence
    ensures events[0] in events && events[0].sequence in NumbersOf(events)
  {
    assert forall y :: y in events <==> y == events[0] || y in events[1..];
    assert forall i :: 1 <= i < |events| ==> events[i] == events[1..][i - 1];
  }

  lemma IssuedGrows(events: seq<Pending>, issued: seq<Body>, body: Body)
    requires AsIssued(events, issued)
    ensures AsIssued(events, issued + [body])
    ensures AsIssued(events + [Pending(|issued| + 1, body)], issued + [body])
  {
    var x := Pending(|issued| + 1, body);
    assert forall y :: y in events + [x] <==> y in events || y == x;
    forall i | 0 <= i < |events| ensures events[i].sequence < x.sequence {
      assert events[i] in events;
    }
  }

  lemma SettledGrows(issued: seq<Body>, decided: set<int>, body: Body)
    ensures Settled(issued, decided) <= Settled(issued + [body], decided)
  {
  }

  lemma AnswersGrow(answers: seq<Ack>, a: Ack)
    ensures Decided(answers + [a]) == Decided(answers) + {a.sequence}
  {
    assert forall b :: b in answers + [a] <==> b in answers || b == a;
  }

  lemma SettledAnswered(issued: seq<Body>, decided: set<int>, n: int)
    ensures Settled(issued, decided + {n}) == Settled(issued, decided) + {n}
  {
  }

  lemma LinkStays(w: World, v: World, k: nat)
    requires k < |w.links| && k < |v.links| && LinkOk(w, k) && v.links[k] == w.links[k]
    requires w.issued <= v.issued && w.server.answers <= v.server.answers
    requires Settled(w.issued, Decided(w.server.answers)) <= Settled(v.issued, Decided(v.server.answers))
    requires IsLive(v.links[k], k, v.server.subscribed) ==> IsLive(w.links[k], k, w.server.subscribed)
    requires v.socket == Some(k) ==> w.socket == Some(k) && v.page.next == w.page.next
    ensures LinkOk(v, k)
  {
    hide Settled, Decided, NumbersOf;
    assert AsIssued(v.links[k].toServer, v.issued);
    hide AsIssued;
    assert AcksOk(v.links[k].toPage, v.server.answers);
    hide AcksOk;
  }

  lemma ActKeepsOk(w: World, body: Body)
    requires Ok(w) && CanAct(w)
    ensures Ok(Acted(w, body))
  {
    var v := Acted(w, body);
    var event, k := Pending(w.page.next, body), w.socket.value;
    SettledGrows(w.issued, Decided(w.server.answers), body);
    IssuedGrows(w.page.pending, w.issued, body);
    NumbersGrow(w.page.pending, event);
    ActKeepsPage(w, body);
    ActKeepsServer(w, body);
    ActKeepsSocket(w, body);
    hide PageOk, ServerOk, Settled;
    forall i | 0 <= i < |v.links| ensures LinkOk(v, i) {
      assert LinkOk(w, i);
      if i != k {
        hide LinkOk;
        LinkStays(w, v, i);
      }
    }
  }

  lemma PageStands(w: World)
    requires Ok(w)
    ensures PageOk(w) && forall x :: x in w.page.pending ==> x.sequence < w.page.next
  {
  }

  lemma ActKeepsPage(w: World, body: Body)
    requires Ok(w) && CanAct(w)
    ensures PageOk(Acted(w, body))
  {
    hide Ok, QueueOk, AsIssued, NumbersOf, Saved;
    var event := Pending(w.page.next, body);
    PageStands(w);
    IssuedGrows(w.page.pending, w.issued, body);
    NumbersGrow(w.page.pending, event);
    QueueOkLater(w.page.pending, w.page.next);
    QueueGrows(w.page.pending, w.page.next + 1, event);
  }

  lemma QueueOkLater(pending: seq<Pending>, next: int)
    requires QueueOk(pending, next) && next < MAX_SAFE_INTEGER
    ensures QueueOk(pending, next + 1)
  {
  }

  lemma ActKeepsServer(w: World, body: Body)
    requires Ok(w) && CanAct(w)
    ensures ServerOk(Acted(w, body))
  {
    assert ServerOk(w) && |w.issued| == w.page.next - 1;
    hide Ok, PageOk;
    SettledGrows(w.issued, Decided(w.server.answers), body);
    assert AsApplied(w.server.applied, w.issued + [body]);
    hide AsApplied, AnswersOk, NumbersOf, Settled, Decided;
  }

  lemma ActKeepsSocket(w: World, body: Body)
    requires Ok(w) && CanAct(w)
    ensures LinkOk(Acted(w, body), w.socket.value)
  {
    var v := Acted(w, body);
    var event, k := Pending(w.page.next, body), w.socket.value;
    assert LinkOk(w, k) && |w.issued| == w.page.next - 1;
    hide Ok, PageOk;
    SettledGrows(w.issued, Decided(w.server.answers), body);
    IssuedGrows(w.links[k].toServer, w.issued, body);
    NumbersGrow(w.links[k].toServer, event);
    hide AsIssued, NumbersOf, Settled;
  }

  lemma ConnectKeepsOk(w: World)
    requires Ok(w)
    ensures Ok(Connected(w))
  {
    var v := Connected(w);
    forall i | 0 <= i < |v.links| ensures LinkOk(v, i) {
      if i < |w.links| {
        assert LinkOk(w, i);
        hide LinkOk;
        LinkStays(w, v, i);
      } else {
        hide NumbersOf, AsIssued;
      }
    }
    hide LinkOk;
  }

  lemma DisconnectKeepsOk(w: World)
    requires Ok(w)
    ensures Ok(Disconnected(w))
  {
    var v := Disconnected(w);
    forall i | 0 <= i < |v.links| ensures LinkOk(v, i) {
      assert LinkOk(w, i);
      hide LinkOk;
      LinkStays(w, v, i);
    }
    hide LinkOk;
  }

  lemma ReloadKeepsOk(w: World)
    requires Ok(w) && w.page.stored.Some?
    ensures Ok(Reloaded(w))
    ensures Reloaded(w).page == w.page.(open := false)
  {
    hide Restored, NextAfter, Saved, QueueOk, AsIssued, NumbersOf, ServerHolds;
    var v := Reloaded(w);
    ReloadChangesNothing(w.page);
    assert v.page == w.page.(open := false);
    hide Rejoined;
    forall i | 0 <= i < |v.links| ensures LinkOk(v, i) {
      assert LinkOk(w, i);
      hide LinkOk;
      LinkStays(w, v, i);
    }
    hide LinkOk;
  }

  lemma StateKeepsOk(w: World)
    requires Ok(w)
    ensures Ok(w.(page := TokenTold(w.page)))
  {
    var v := w.(page := TokenTold(w.page));
    forall i | 0 <= i < |v.links| ensures LinkOk(v, i) {
      assert LinkOk(w, i);
      hide LinkOk;
      LinkStays(w, v, i);
    }
    hide LinkOk;
  }

  lemma AckIsAnswered(w: World)
    requires Ok(w) && CanTakeAck(w)
    ensures PageOk(w) && w.links[w.socket.value].toPage[0].sequence in Decided(w.server.answers)
  {
    var k := w.socket.value;
    assert LinkOk(w, k);
    assert w.links[k].toPage[0] in w.links[k].toPage;
    hide PageOk, ServerHolds, Settled;
  }

  lemma AckKeepsPage(w: World)
    requires Ok(w) && CanTakeAck(w)
    ensures PageOk(AckTaken(w))
  {
    hide Ok, Decided, Saved, WithoutNumber;
    AckIsAnswered(w);
    var ack := w.links[w.socket.value].toPage[0];
    WithoutNumberOk(w.page.pending, w.page.next, ack.sequence);
    QueueIsAscending(WithoutNumber(w.page.pending, ack.sequence), w.page.next);
    hide QueueOk;
  }

  lemma QueueIsAscending(pending: seq<Pending>, next: int)
    requires QueueOk(pending, next)
    ensures forall i, j :: 0 <= i < j < |pending| ==> pending[i].sequence < pending[j].sequence
  {
  }

  lemma AckKeepsOk(w: World)
    requires Ok(w) && CanTakeAck(w)
    ensures Ok(AckTaken(w))
  {
    var v := AckTaken(w);
    AckKeepsPage(w);
    assert v.page.next == w.page.next && ServerOk(v);
    hide PageOk, Acknowledged, ServerOk;
    forall i | 0 <= i < |v.links| ensures LinkOk(v, i) {
      assert LinkOk(w, i);
      if i != w.socket.value {
        hide LinkOk;
        LinkStays(w, v, i);
      }
    }
    hide LinkOk;
  }

  lemma TakeKeepsOk(w: World, k: nat)
    requires Ok(w) && k < |w.links| && w.links[k].phase == Unread
    ensures Ok(w.(links := w.links[k := w.links[k].(phase := Read)], server := w.server.(subscribed := Some(k))))
  {
    var v := w.(links := w.links[k := w.links[k].(phase := Read)], server := w.server.(subscribed := Some(k)));
    forall i | 0 <= i < |v.links| ensures LinkOk(v, i) {
      assert LinkOk(w, i);
      if i != k {
        hide LinkOk;
        LinkStays(w, v, i);
      }
    }
    hide LinkOk;
  }

  lemma LoseKeepsOk(w: World, k: nat)
    requires Ok(w) && k < |w.links|
    ensures Ok(w.(links := w.links[k := Link([], [], Broken)]))
  {
    var v := w.(links := w.links[k := Link([], [], Broken)]);
    forall i | 0 <= i < |v.links| ensures LinkOk(v, i) {
      assert LinkOk(w, i);
      if i != k {
        hide LinkOk;
        LinkStays(w, v, i);
      }
    }
    hide LinkOk;
  }

  // The event about to be taken, and what is known of it where the seat is held.
  lemma HeadIsNext(w: World, k: nat)
    requires Ok(w) && CanAnswer(w, k)
    ensures var event := w.links[k].toServer[0];
      && 1 <= event.sequence < w.page.next && event.body == w.issued[event.sequence - 1]
      && (w.server.subscribed == Some(k) ==>
          forall n :: 1 <= n < event.sequence ==> n in Settled(w.issued, Decided(w.server.answers)))
  {
    assert LinkOk(w, k) && |w.issued| == w.page.next - 1;
    NumbersShrink(w.links[k].toServer, w.issued);
    hide Settled, Decided;
  }

  // Taking the head of a queue once it is settled opens no gap behind it.
  lemma RestHasNoGaps(events: seq<Pending>, issued: seq<Body>, settled: set<int>, wider: set<int>, next: int)
    requires AsIssued(events, issued) && events != [] && NoGaps(NumbersOf(events), settled)
    requires settled <= wider && events[0].sequence in wider
    ensures NoGaps(NumbersOf(events[1..]), wider)
    ensures AllThere(NumbersOf(events), settled, next) ==> AllThere(NumbersOf(events[1..]), wider, next)
  {
    NumbersShrink(events, issued);
    hide AsIssued, NumbersOf;
  }

  lemma UnreadableIsSettled(w: World, k: nat)
    requires Ok(w) && CanAnswer(w, k) && !w.links[k].toServer[0].body.decodable
    ensures w.links[k].toServer[0].sequence in Settled(w.issued, Decided(w.server.answers))
  {
    HeadIsNext(w, k);
    var n := w.links[k].toServer[0].sequence;
    assert |w.issued| == w.page.next - 1;
    assert CannotBeRead(w.issued, n);
    hide Ok, Decided;
  }

  // Every number up to the cursor is settled, so one that can be read has been answered.
  lemma DuplicateWasDecided(w: World, k: nat)
    requires Ok(w) && CanAnswer(w, k) && w.links[k].toServer[0].body.decodable
    requires w.links[k].toServer[0].sequence <= w.server.cursor
    ensures w.links[k].toServer[0].sequence in Decided(w.server.answers)
  {
    HeadIsNext(w, k);
    assert ServerOk(w);
    hide Ok, Decided;
    var n := w.links[k].toServer[0].sequence;
    assert !CannotBeRead(w.issued, n);
    assert n in Settled(w.issued, Decided(w.server.answers));
  }

  lemma AppliedGrows(applied: seq<Pending>, x: Pending, issued: seq<Body>, cursor: int)
    requires AsApplied(applied, issued) && cursor == (if applied == [] then 0 else applied[|applied| - 1].sequence) < x.sequence
    requires 1 <= x.sequence <= |issued| && Carries(issued[x.sequence - 1], x.body)
    ensures AsApplied(applied + [x], issued)
    ensures forall y :: y in applied ==> y.sequence <= cursor
  {
    forall i | 0 <= i < |applied| ensures applied[i].sequence <= cursor {
      assert i < |applied| - 1 ==> applied[i].sequence < applied[|applied| - 1].sequence;
    }
    hide Carries;
  }

  lemma AnswersStayOk(s: Server, x: Pending, status: Status)
    requires AnswersOk(s.answers, s.applied)
    requires status == Duplicate ==> x.sequence in Decided(s.answers)
    ensures AnswersOk(s.answers + [Ack(x.sequence, status)], if status == Applied then s.applied + [x] else s.applied)
  {
    var a := Ack(x.sequence, status);
    var answers := s.answers + [a];
    assert forall b :: b in answers <==> b in s.answers || b == a;
    NumbersGrow(s.applied, x);
    hide NumbersOf, Decided;
    forall i | 0 <= i < |answers| && answers[i].status == Duplicate ensures answers[i].sequence in Decided(answers[..i]) {
      assert answers[..i] == s.answers[..i];
      assert i == |s.answers| ==> s.answers[..i] == s.answers;
    }
  }

  lemma AppliedHolds(s: Server, issued: seq<Body>, next: int, x: Pending)
    requires ServerHolds(s, issued, next) && s.cursor < x.sequence < next && |issued| == next - 1
    requires Carries(issued[x.sequence - 1], x.body)
    requires forall n :: 1 <= n < x.sequence ==> n in Settled(issued, Decided(s.answers))
    ensures ServerHolds(s.(cursor := x.sequence, answers := s.answers + [Ack(x.sequence, Applied)], applied := s.applied + [x]), issued, next)
  {
    hide AsApplied, AnswersOk, NumbersOf, Settled, Decided, Carries;
    AnswersGrow(s.answers, Ack(x.sequence, Applied));
    SettledAnswered(issued, Decided(s.answers), x.sequence);
    AnswersStayOk(s, x, Applied);
    AppliedGrows(s.applied, x, issued, s.cursor);
    assert (s.applied + [x])[|s.applied + [x]| - 1] == x;
  }

  lemma NotAppliedHolds(s: Server, issued: seq<Body>, next: int, x: Pending, status: Status)
    requires ServerHolds(s, issued, next) && 1 <= x.sequence < next && status != Applied
    requires status == Duplicate ==> x.sequence in Decided(s.answers)
    ensures ServerHolds(s.(answers := s.answers + [Ack(x.sequence, status)]), issued, next)
  {
    hide AsApplied, AnswersOk, NumbersOf, Settled, Decided;
    AnswersGrow(s.answers, Ack(x.sequence, status));
    SettledAnswered(issued, Decided(s.answers), x.sequence);
    AnswersStayOk(s, x, status);
  }

  lemma WordedCarries(body: Body, judgement: Judgement)
    ensures Carries(body, Worded(body, judgement))
  {
  }

  lemma AnswerHolds(s: Server, issued: seq<Body>, next: int, event: Pending, status: Status, judgement: Judgement)
    requires ServerHolds(s, issued, next) && 1 <= event.sequence < next && |issued| == next - 1
    requires event.body == issued[event.sequence - 1]
    requires status == Duplicate ==> event.sequence in Decided(s.answers)
    requires status == Applied ==> s.cursor < event.sequence && forall n :: 1 <= n < event.sequence ==> n in Settled(issued, Decided(s.answers))
    ensures ServerHolds(AfterAnswer(s, event, status, judgement), issued, next)
  {
    hide ServerHolds, Settled, Decided, Carries, Worded;
    var x := Pending(event.sequence, Worded(event.body, judgement));
    WordedCarries(event.body, judgement);
    if status == Applied {
      AppliedHolds(s, issued, next, x);
    } else {
      NotAppliedHolds(s, issued, next, x, status);
    }
  }

  lemma AnswerKeepsServer(w: World, k: nat, judgement: Judgement, acked: bool)
    requires Ok(w) && CanAnswer(w, k)
    ensures ServerOk(Answered(w, k, judgement, acked))
  {
    HeadIsNext(w, k);
    var event := w.links[k].toServer[0];
    if event.body.decodable && event.sequence <= w.server.cursor {
      DuplicateWasDecided(w, k);
    }
    assert ServerHolds(w.server, w.issued, w.page.next) && |w.issued| == w.page.next - 1;
    hide Ok, ServerHolds, Settled, Decided, AfterAnswer;
    var verdict := Verdict(w.server, k, event, judgement);
    if verdict.Some? {
      AnswerHolds(w.server, w.issued, w.page.next, event, verdict.value, judgement);
    }
  }

  // The answers only grow, and by this one number.
  lemma AnswersAfter(w: World, k: nat, judgement: Judgement, acked: bool)
    requires CanAnswer(w, k)
    ensures var s, t := w.server, Answered(w, k, judgement, acked).server;
      && s.answers <= t.answers && t.subscribed == s.subscribed
      && Decided(t.answers) == Decided(s.answers) +
         if Verdict(s, k, w.links[k].toServer[0], judgement).Some? then {w.links[k].toServer[0].sequence} else {}
  {
    var verdict := Verdict(w.server, k, w.links[k].toServer[0], judgement);
    hide Decided, Verdict, Worded;
    if verdict.Some? {
      AnswersGrow(w.server.answers, Ack(w.links[k].toServer[0].sequence, verdict.value));
    }
  }

  lemma AnswerKeepsPage(w: World, k: nat, judgement: Judgement, acked: bool)
    requires Ok(w) && CanAnswer(w, k)
    ensures PageOk(Answered(w, k, judgement, acked))
  {
    AnswersAfter(w, k, judgement, acked);
    hide QueueOk, AsIssued, NumbersOf, Saved, LinkOk, ServerOk, Decided, Verdict, AfterAnswer;
  }

  lemma AnswerKeepsLink(w: World, k: nat, judgement: Judgement, acked: bool)
    requires Ok(w) && CanAnswer(w, k)
    ensures LinkOk(Answered(w, k, judgement, acked), k)
  {
    hide AsIssued, NumbersOf, Settled, NoGaps, AllThere, AcksOk, Decided, AfterAnswer;
    var v := Answered(w, k, judgement, acked);
    var link := w.links[k];
    var event := link.toServer[0];
    assert LinkOk(w, k);
    AnswersAfter(w, k, judgement, acked);
    SettledAnswered(w.issued, Decided(w.server.answers), event.sequence);
    NumbersShrink(link.toServer, w.issued);
    if !event.body.decodable {
      UnreadableIsSettled(w, k);
    }
    hide Ok;
    var settled, wider := Settled(w.issued, Decided(w.server.answers)), Settled(v.issued, Decided(v.server.answers));
    if IsLive(link, k, w.server.subscribed) {
      assert settled <= wider && event.sequence in wider;
      RestHasNoGaps(link.toServer, w.issued, settled, wider, w.page.next);
    }
    AcksAfter(w, k, judgement, acked);
    NothingToSay(w.issued);
  }

  lemma AcksAfter(w: World, k: nat, judgement: Judgement, acked: bool)
    requires CanAnswer(w, k) && AcksOk(w.links[k].toPage, w.server.answers)
    ensures var v := Answered(w, k, judgement, acked); AcksOk(v.links[k].toPage, v.server.answers)
  {
    hide Verdict, Worded;
  }

  lemma NothingToSay(issued: seq<Body>)
    ensures AsIssued([], issued)
  {
  }

  lemma AnswerKeepsOk(w: World, k: nat, judgement: Judgement, acked: bool)
    requires Ok(w) && CanAnswer(w, k)
    ensures Ok(Answered(w, k, judgement, acked))
  {
    hide PageOk, ServerOk, Settled, Decided, LinkOk, Verdict, AfterAnswer;
    var v := Answered(w, k, judgement, acked);
    AnswerKeepsServer(w, k, judgement, acked);
    AnswerKeepsPage(w, k, judgement, acked);
    AnswerKeepsLink(w, k, judgement, acked);
    AnswersAfter(w, k, judgement, acked);
    SettledAnswered(w.issued, Decided(w.server.answers), w.links[k].toServer[0].sequence);
    forall i | 0 <= i < |v.links| ensures LinkOk(v, i) {
      assert LinkOk(w, i);
      if i != k {
        LinkStays(w, v, i);
      }
    }
  }

  lemma MoveKeepsOk(w: World, move: Move)
    requires Ok(w)
    ensures Ok(Next(w, move))
  {
    hide Ok, CanAct, Acted, Connected, Disconnected, CanTakeAck, AckTaken, Reloaded, CanAnswer, Answered, TokenTold;
    match move
    case Act(body) => if CanAct(w) { ActKeepsOk(w, body); }
    case Connect => ConnectKeepsOk(w);
    case Disconnect => DisconnectKeepsOk(w);
    case TakeAck => if CanTakeAck(w) { AckKeepsOk(w); }
    case TakeState => StateKeepsOk(w);
    case Reload => if w.page.stored.Some? { ReloadKeepsOk(w); }
    case Take(k) => if k < |w.links| && w.links[k].phase == Unread { TakeKeepsOk(w, k); }
    case Lose(k) => if k < |w.links| { LoseKeepsOk(w, k); }
    case Answer(k, judgement, acked) => if CanAnswer(w, k) { AnswerKeepsOk(w, k, judgement, acked); }
  }

  lemma {:induction false} RunKeepsOk(moves: seq<Move>)
    ensures Ok(Run(START, moves))
  {
    hide Next;
    if moves == [] {
    } else {
      RunKeepsOk(moves[..|moves| - 1]);
      hide Ok;
      MoveKeepsOk(Run(START, moves[..|moves| - 1]), moves[|moves| - 1]);
    }
  }

  // ---- What is promised -----------------------------------------------------------------------

  // Whatever is lost, broken, replaced or reloaded, the server applies the page's events in the order
  // they were given out, each at most once, and as it was given out but for the words of a chat message.
  lemma AppliedInOrderAtMostOnce(moves: seq<Move>)
    ensures var w := Run(START, moves);
      && (forall i, j :: 0 <= i < j < |w.server.applied| ==> w.server.applied[i].sequence < w.server.applied[j].sequence)
      && (forall i :: 0 <= i < |w.server.applied| ==>
          var x := w.server.applied[i]; 1 <= x.sequence <= |w.issued| && Carries(w.issued[x.sequence - 1], x.body))
  {
    RunKeepsOk(moves);
    var w := Run(START, moves);
    assert AsApplied(w.server.applied, w.issued);
    hide Run, Ok, Carries;
    assert forall i :: 0 <= i < |w.server.applied| ==> w.server.applied[i] in w.server.applied;
  }

  predicate HasAnswer(s: Server, n: int) {
    exists a :: a in s.answers && a.sequence == n
  }

  predicate IsPending(page: Page, n: int) {
    exists x :: x in page.pending && x.sequence == n
  }

  // Every number given out is still pending or has been answered; the queue is strictly ascending,
  // below the next number, and never longer than it may be; the stored session is the live one.
  lemma NothingIsForgotten(moves: seq<Move>)
    ensures var w := Run(START, moves);
      && QueueOk(w.page.pending, w.page.next)
      && (forall n :: 1 <= n < w.page.next ==> HasAnswer(w.server, n) || IsPending(w.page, n))
      && (w.page.stored.Some? ==> w.page.stored == Some(Saved(w.page.pending, w.page.next)))
  {
    RunKeepsOk(moves);
    var w := Run(START, moves);
    assert PageOk(w);
    hide Run, Ok, QueueOk, AsIssued;
    forall n | 1 <= n < w.page.next ensures HasAnswer(w.server, n) || IsPending(w.page, n) {
      assert n in Decided(w.server.answers) || n in NumbersOf(w.page.pending);
    }
  }

  // An event leaves the queue only when an ack with its number is taken from the open connection.
  lemma LeavesOnAckOnly(moves: seq<Move>, move: Move, x: Pending)
    requires var w := Run(START, moves); x in w.page.pending && x !in Next(w, move).page.pending
    ensures var w := Run(START, moves);
      move == TakeAck && CanTakeAck(w) && w.links[w.socket.value].toPage[0].sequence == x.sequence
  {
    hide Run, Next, CanTakeAck;
    var w := Run(START, moves);
    RunKeepsOk(moves);
    if move.TakeAck? {
      AckTakesItsNumber(w, x);
    } else {
      OthersLeaveTheQueue(w, move, x);
    }
  }

  lemma AckTakesItsNumber(w: World, x: Pending)
    requires Ok(w) && x in w.page.pending && x !in Next(w, TakeAck).page.pending
    ensures CanTakeAck(w) && w.links[w.socket.value].toPage[0].sequence == x.sequence
  {
    hide WithoutNumber, Saved, Ok, QueueOk;
    if CanTakeAck(w) {
      AckIsAnswered(w);
      WithoutNumberOk(w.page.pending, w.page.next, w.links[w.socket.value].toPage[0].sequence);
      hide PageOk;
    }
  }

  lemma OthersLeaveTheQueue(w: World, move: Move, x: Pending)
    requires Ok(w) && !move.TakeAck? && x in w.page.pending
    ensures x in Next(w, move).page.pending
  {
    hide Ok, Answered, Reloaded, CanAnswer, Rejoined, Saved;
    if move.Reload? && w.page.stored.Some? {
      ReloadKeepsOk(w);
    } else if move.Answer? && CanAnswer(w, move.link) {
      AnsweringLeavesThePage(w, move.link, move.judgement, move.acked);
    }
  }

  lemma AnsweringLeavesThePage(w: World, k: nat, judgement: Judgement, acked: bool)
    requires CanAnswer(w, k)
    ensures Answered(w, k, judgement, acked).page == w.page
  {
    hide Verdict, AfterAnswer;
  }

  // Every ack on its way was given; the server says "applied" of exactly the events it has applied; and
  // the first answer about an event is never "duplicate", so it is true.
  lemma AnswersAreTrue(moves: seq<Move>)
    ensures var w := Run(START, moves);
      && (forall k, a :: 0 <= k < |w.links| && a in w.links[k].toPage ==> a in w.server.answers)
      && (forall n :: Ack(n, Applied) in w.server.answers <==> exists x :: x in w.server.applied && x.sequence == n)
      && (forall i :: 0 <= i < |w.server.answers| && w.server.answers[i].status == Duplicate ==>
          exists a :: a in w.server.answers[..i] && a.sequence == w.server.answers[i].sequence)
  {
    RunKeepsOk(moves);
    var w := Run(START, moves);
    assert ServerOk(w);
    hide Run;
    forall k, a | 0 <= k < |w.links| && a in w.links[k].toPage ensures a in w.server.answers {
      assert LinkOk(w, k);
    }
    hide Ok;
    forall i | 0 <= i < |w.server.answers| && w.server.answers[i].status == Duplicate
      ensures exists a :: a in w.server.answers[..i] && a.sequence == w.server.answers[i].sequence
    {
      assert w.server.answers[i].sequence in Decided(w.server.answers[..i]);
    }
  }

  predicate IsApplied(s: Server, n: int) {
    exists x :: x in s.applied && x.sequence == n
  }

  // This is about to be said of the event with this number.
  predicate IsSaid(w: World, k: nat, judgement: Judgement, n: int, status: Status) {
    && CanAnswer(w, k)
    && w.links[k].toServer[0].sequence == n
    && Verdict(w.server, k, w.links[k].toServer[0], judgement) == Some(status)
  }

  // Of an event that has been applied, "rejected" is said exactly when it is turned away before the
  // room is asked. What the room itself answers is always true.
  lemma RejectedIsUntrueExactly(moves: seq<Move>, k: nat, judgement: Judgement, n: int, status: Status)
    requires IsSaid(Run(START, moves), k, judgement, n, status)
    ensures status == Rejected && IsApplied(Run(START, moves).server, n) <==> judgement == TurnAway && IsApplied(Run(START, moves).server, n)
  {
    RunKeepsOk(moves);
    var w := Run(START, moves);
    assert ServerOk(w);
    hide Run, Ok;
    if IsApplied(w.server, n) {
      AppliedIsBehindCursor(w.server, w.issued, n);
    }
    hide AsApplied, AnswersOk, IsApplied;
  }

  lemma AppliedIsBehindCursor(s: Server, issued: seq<Body>, n: int)
    requires AsApplied(s.applied, issued) && IsApplied(s, n) && s.applied != [] && s.cursor == s.applied[|s.applied| - 1].sequence
    ensures n <= s.cursor
  {
    var x :| x in s.applied && x.sequence == n;
    var i :| 0 <= i < |s.applied| && s.applied[i] == x;
    assert i < |s.applied| - 1 ==> s.applied[i].sequence < s.applied[|s.applied| - 1].sequence;
  }

  // ---- In which order numbers are answered ----------------------------------------------------

  // This number or a later one was applied by one of the first so many answers.
  ghost predicate IsReached(answers: seq<Ack>, n: int, before: nat) {
    exists i :: 0 <= i < before <= |answers| && answers[i].status == Applied && answers[i].sequence >= n
  }

  // Numbers are applied upwards, the last being the cursor, and a duplicate is at or below one applied before.
  ghost predicate InTurn(answers: seq<Ack>, cursor: int) {
    && (forall i :: 0 <= i < |answers| && answers[i].status == Applied ==> answers[i].sequence <= cursor)
    && (cursor > 0 ==> Ack(cursor, Applied) in answers)
    && (forall i, j :: 0 <= i < j < |answers| && answers[i].status == Applied && answers[j].status == Applied ==>
        answers[i].sequence < answers[j].sequence)
    && (forall j :: 0 <= j < |answers| && answers[j].status == Duplicate ==> IsReached(answers, answers[j].sequence, j))
  }

  lemma AnswerInTurn(answers: seq<Ack>, cursor: int, n: int, status: Status)
    requires InTurn(answers, cursor) && n >= 1 && (status == Applied ==> cursor < n) && (status == Duplicate ==> n <= cursor)
    ensures InTurn(answers + [Ack(n, status)], if status == Applied then n else cursor)
  {
    var all := answers + [Ack(n, status)];
    assert forall i :: 0 <= i < |answers| ==> all[i] == answers[i];
    assert all[|answers|] == Ack(n, status);
    if status != Applied && cursor > 0 {
      var i :| 0 <= i < |answers| && answers[i] == Ack(cursor, Applied);
      assert all[i] == Ack(cursor, Applied);
    }
    forall j | 0 <= j < |all| && all[j].status == Duplicate ensures IsReached(all, all[j].sequence, j) {
      if j < |answers| {
        assert IsReached(answers, answers[j].sequence, j);
        var i :| 0 <= i < j && answers[i].status == Applied && answers[i].sequence >= answers[j].sequence;
        assert all[i] == answers[i];
      }
    }
  }

  lemma SaidInTurn(w: World, k: nat, judgement: Judgement, acked: bool)
    requires Ok(w) && CanAnswer(w, k) && InTurn(w.server.answers, w.server.cursor)
    ensures InTurn(Answered(w, k, judgement, acked).server.answers, Answered(w, k, judgement, acked).server.cursor)
  {
    var event := w.links[k].toServer[0];
    HeadIsNext(w, k);
    hide Ok, InTurn;
    var verdict := Verdict(w.server, k, event, judgement);
    if verdict.Some? {
      AnswerInTurn(w.server.answers, w.server.cursor, event.sequence, verdict.value);
    }
  }

  lemma OnlyAnswersAnswer(w: World, move: Move)
    requires !move.Answer?
    ensures Next(w, move).server.answers == w.server.answers && Next(w, move).server.cursor == w.server.cursor
  {
  }

  lemma {:induction false} RunInTurn(moves: seq<Move>)
    ensures InTurn(Run(START, moves).server.answers, Run(START, moves).server.cursor)
  {
    hide InTurn, Answered, CanAnswer;
    if moves == [] {
      NothingSaid();
    } else {
      var w, move := Run(START, moves[..|moves| - 1]), moves[|moves| - 1];
      RunInTurn(moves[..|moves| - 1]);
      RunKeepsOk(moves[..|moves| - 1]);
      hide Ok, Run;
      if move.Answer? {
        if CanAnswer(w, move.link) {
          SaidInTurn(w, move.link, move.judgement, move.acked);
        }
      } else {
        OnlyAnswersAnswer(w, move);
      }
    }
  }

  lemma NothingSaid()
    ensures InTurn([], 0)
  {
  }

  // A later number was applied while everything said of this one was "rejected".
  ghost predicate IsOvertaken(answers: seq<Ack>, n: int) {
    exists i :: 0 <= i < |answers| && answers[i].status == Applied && answers[i].sequence > n && OnlyRejected(answers[..i], n)
  }

  predicate OnlyRejected(answers: seq<Ack>, n: int) {
    forall a :: a in answers && a.sequence == n ==> a.status == Rejected
  }

  // The first answer that applied this number or a later one.
  lemma {:induction false} FirstReached(answers: seq<Ack>, n: int, before: nat) returns (i: nat)
    requires IsReached(answers, n, before)
    ensures i < before <= |answers| && answers[i].status == Applied && answers[i].sequence >= n && !IsReached(answers, n, i)
    decreases before
  {
    i :| 0 <= i < before <= |answers| && answers[i].status == Applied && answers[i].sequence >= n;
    if IsReached(answers, n, i) {
      i := FirstReached(answers, n, i);
    }
  }

  lemma ReachedByOthers(answers: seq<Ack>, cursor: int, n: int)
    requires InTurn(answers, cursor) && 1 <= n <= cursor
    ensures Ack(n, Applied) !in answers <==> IsOvertaken(answers, n)
  {
    var c :| 0 <= c < |answers| && answers[c] == Ack(cursor, Applied);
    assert IsReached(answers, n, |answers|);
    var i := FirstReached(answers, n, |answers|);
    RejectedUntilReached(answers, cursor, n, i);
    if Ack(n, Applied) !in answers {
      assert answers[i] in answers && answers[i] == Ack(answers[i].sequence, Applied);
      forall a | a in answers[..i] && a.sequence == n ensures a.status == Rejected {
        var j :| 0 <= j < i && answers[..i][j] == a;
        assert answers[j] == a;
      }
    } else {
      var m :| 0 <= m < |answers| && answers[m] == Ack(n, Applied);
      forall k | 0 <= k < |answers| && answers[k].status == Applied && answers[k].sequence > n ensures !OnlyRejected(answers[..k], n) {
        assert k > m;
        assert answers[..k][m] == Ack(n, Applied);
      }
    }
  }

  lemma RejectedUntilReached(answers: seq<Ack>, cursor: int, n: int, i: nat)
    requires InTurn(answers, cursor) && i <= |answers| && !IsReached(answers, n, i)
    ensures forall j :: 0 <= j < i && answers[j].sequence == n ==> answers[j].status == Rejected
  {
  }

  // When "duplicate" is said of an event, something was said of it before; and it was never applied exactly if
  // a later one was applied when it had been turned away or refused at every attempt.
  lemma DuplicateIsUntrueExactly(moves: seq<Move>, k: nat, judgement: Judgement, n: int)
    requires IsSaid(Run(START, moves), k, judgement, n, Duplicate)
    ensures var s := Run(START, moves).server;
      HasAnswer(s, n) && (!IsApplied(s, n) <==> IsOvertaken(s.answers, n))
  {
    RunKeepsOk(moves);
    RunInTurn(moves);
    var w := Run(START, moves);
    AnswersAreTrue(moves);
    hide Run, InTurn, IsOvertaken;
    DuplicateWasDecided(w, k);
    HeadIsNext(w, k);
    hide Ok, CanAnswer;
    assert IsApplied(w.server, n) <==> Ack(n, Applied) in w.server.answers;
    hide IsApplied, HasAnswer;
    ReachedByOthers(w.server.answers, w.server.cursor, n);
  }

  // Of the first "duplicate" this is when everything said before was "rejected".
  lemma FirstDuplicateIsUntrueExactly(moves: seq<Move>, k: nat, judgement: Judgement, n: int)
    requires IsSaid(Run(START, moves), k, judgement, n, Duplicate) && Ack(n, Duplicate) !in Run(START, moves).server.answers
    ensures var s := Run(START, moves).server;
      !IsApplied(s, n) <==> OnlyRejected(s.answers, n)
  {
    AnswersAreTrue(moves);
    var s := Run(START, moves).server;
    hide Run;
    assert IsApplied(s, n) <==> Ack(n, Applied) in s.answers;
    hide IsApplied;
    forall a | a in s.answers && a.sequence == n ensures a == Ack(n, a.status) {
    }
  }

  // ---- Both do happen -------------------------------------------------------------------------

  ghost predicate Reached(w: World) {
    exists moves :: Run(START, moves) == w
  }

  lemma MoveReaches(w: World, move: Move)
    requires Reached(w)
    ensures Reached(Next(w, move))
  {
    var moves :| Run(START, moves) == w;
    assert (moves + [move])[..|moves|] == moves;
    hide Next;
    assert Run(START, moves + [move]) == Next(w, move);
  }

  function Gone(n: nat): seq<Link> {
    seq(n, _ => Link([], [], Broken))
  }

  // A page that has lost n connections and holds its seat on another, with this on the way to the
  // server and back.
  function Holding(n: nat, pending: seq<Pending>, queue: seq<Pending>, acks: seq<Ack>, issued: seq<Body>, server: Server): World {
    World(Page(pending, |pending| + 1, None, true), Some(n), Gone(n) + [Link(queue, acks, Read)], server.(subscribed := Some(n)), issued)
  }

  lemma FirstConnection()
    ensures Reached(Holding(0, [], [], [], [], Server(0, None, [], [])))
  {
    assert Run(START, []) == START;
    MoveReaches(START, Connect);
    MoveReaches(Connected(START), Take(0));
    hide Run;
    assert Gone(0) + [Link([], [], Read)] == [Link([], [], Read)];
    assert Next(Connected(START), Take(0)) == Holding(0, [], [], [], [], Server(0, None, [], []));
  }

  lemma ActsNext(n: nat, pending: seq<Pending>, queue: seq<Pending>, acks: seq<Ack>, issued: seq<Body>, server: Server, b: Body)
    requires |pending| < MAX_PENDING_EVENTS && Reached(Holding(n, pending, queue, acks, issued, server))
    ensures var x := Pending(|pending| + 1, b); Reached(Holding(n, pending + [x], queue + [x], acks, issued + [b], server))
  {
    var w := Holding(n, pending, queue, acks, issued, server);
    MoveReaches(w, Act(b));
    hide Reached;
    var x := Pending(|pending| + 1, b);
    assert w.links[n := Link(queue + [x], acks, Read)] == Gone(n) + [Link(queue + [x], acks, Read)];
    assert Next(w, Act(b)) == Holding(n, pending + [x], queue + [x], acks, issued + [b], server);
  }

  lemma IsAnswered(n: nat, pending: seq<Pending>, queue: seq<Pending>, acks: seq<Ack>, issued: seq<Body>, server: Server, judgement: Judgement)
    requires queue != [] && queue[0].body.decodable && Reached(Holding(n, pending, queue, acks, issued, server))
    ensures var status := Decide(server.cursor, queue[0].sequence, judgement).0;
      Reached(Holding(n, pending, queue[1..], acks + [Ack(queue[0].sequence, status)], issued,
                      AfterAnswer(server, queue[0], status, judgement)))
  {
    var w := Holding(n, pending, queue, acks, issued, server);
    var status := Decide(server.cursor, queue[0].sequence, judgement).0;
    MoveReaches(w, Answer(n, judgement, true));
    hide Reached, Worded;
    var link := Link(queue[1..], acks + [Ack(queue[0].sequence, status)], Read);
    assert w.links[n] == Link(queue, acks, Read);
    assert w.links[n := link] == Gone(n) + [link];
    assert Next(w, Answer(n, judgement, true)) == Holding(n, pending, queue[1..], link.toPage, issued, AfterAnswer(server, queue[0], status, judgement));
  }

  // The connection is lost with everything on it, and the page is back on another, on which everything
  // pending is sent again.
  lemma ComesBack(n: nat, pending: seq<Pending>, queue: seq<Pending>, acks: seq<Ack>, issued: seq<Body>, server: Server)
    requires Reached(Holding(n, pending, queue, acks, issued, server))
    ensures Reached(Holding(n + 1, pending, pending, [], issued, server))
  {
    var w := Holding(n, pending, queue, acks, issued, server);
    MoveReaches(w, Lose(n));
    hide Reached;
    var lost := w.(links := Gone(n + 1));
    assert w.links[n := Link([], [], Broken)] == Gone(n + 1);
    assert Next(w, Lose(n)) == lost;
    MoveReaches(lost, Disconnect);
    MoveReaches(Disconnected(lost), Connect);
    var back := Connected(Disconnected(lost));
    MoveReaches(back, Take(n + 1));
    assert back.links[n + 1 := Link(pending, [], Read)] == Gone(n + 1) + [Link(pending, [], Read)];
    assert Next(back, Take(n + 1)) == Holding(n + 1, pending, pending, [], issued, server);
  }

  lemma FirstEventIsSaid(n: nat, pending: seq<Pending>, queue: seq<Pending>, issued: seq<Body>, server: Server, judgement: Judgement, status: Status)
    requires queue != [] && queue[0].body.decodable && status == Decide(server.cursor, queue[0].sequence, judgement).0
    ensures IsSaid(Holding(n, pending, queue, [], issued, server), n, judgement, queue[0].sequence, status)
  {
  }

  // An event applied just before its connection broke can be turned away by the rate limiter when it
  // is sent again, and so leave the queue as rejected.
  lemma RejectedMayBeApplied(b: Body)
    requires b.decodable
    ensures exists w, k :: Reached(w) && IsSaid(w, k, TurnAway, 1, Rejected) && IsApplied(w.server, 1)
  {
    hide Reached;
    FirstConnection();
    var none, x := Server(0, None, [], []), Pending(1, b);
    ActsNext(0, [], [], [], [], none, b);
    var queue := [] + [x];
    IsAnswered(0, queue, queue, [], [] + [b], none, RoomAccepts(None));
    var one := AfterAnswer(none, x, Applied, RoomAccepts(None));
    ComesBack(0, queue, queue[1..], [] + [Ack(1, Applied)], [] + [b], one);
    FirstEventIsSaid(1, queue, queue, [] + [b], one, TurnAway, Rejected);
    assert x in one.applied;
    assert IsApplied(Holding(1, queue, queue, [], [] + [b], one).server, 1);
  }

  // Two events: the first refused by the room, the second applied, and the page back on its second
  // connection.
  lemma RefusedThenApplied(b: Body, c: Body) returns (pending: seq<Pending>, server: Server)
    requires b.decodable && c.decodable
    ensures pending == [Pending(1, b), Pending(2, c)] && server.cursor == 2
    ensures server.answers == [Ack(1, Rejected), Ack(2, Applied)] && server.applied == [Pending(2, c)]
    ensures Reached(Holding(1, pending, pending, [], [b, c], server))
  {
    hide Reached;
    FirstConnection();
    var none, x, y := Server(0, None, [], []), Pending(1, b), Pending(2, c);
    ActsNext(0, [], [], [], [], none, b);
    var queue := [] + [x];
    IsAnswered(0, queue, queue, [], [] + [b], none, RoomRefuses);
    var refused := AfterAnswer(none, x, Rejected, RoomRefuses);
    ActsNext(0, queue, queue[1..], [] + [Ack(1, Rejected)], [] + [b], refused, c);
    IsAnswered(0, queue + [y], queue[1..] + [y], [] + [Ack(1, Rejected)], [] + [b] + [c], refused, RoomAccepts(None));
    server := AfterAnswer(refused, y, Applied, RoomAccepts(None));
    pending := queue + [y];
    ComesBack(0, pending, (queue[1..] + [y])[1..], [] + [Ack(1, Rejected)] + [Ack(2, Applied)], [] + [b] + [c], server);
    assert [] + [b] + [c] == [b, c];
  }

  // An event the room refused is a duplicate once a later one has been applied, and stays one: what was
  // said of it before need not all have been "rejected".
  lemma DuplicateMayNeverBeApplied(b: Body, c: Body)
    requires b.decodable && c.decodable
    ensures exists w, k :: Reached(w) && IsSaid(w, k, RoomRefuses, 1, Duplicate) && !IsApplied(w.server, 1) && Ack(1, Duplicate) !in w.server.answers
    ensures exists w, k :: Reached(w) && IsSaid(w, k, RoomRefuses, 1, Duplicate) && !IsApplied(w.server, 1) && Ack(1, Duplicate) in w.server.answers
  {
    var pending, server := RefusedThenApplied(b, c);
    hide Reached;
    FirstEventIsSaid(1, pending, pending, [b, c], server, RoomRefuses, Duplicate);
    var w := Holding(1, pending, pending, [], [b, c], server);
    assert !IsApplied(w.server, 1) && Ack(1, Duplicate) !in w.server.answers;
    IsAnswered(1, pending, pending, [], [b, c], server, RoomRefuses);
    var again := AfterAnswer(server, pending[0], Duplicate, RoomRefuses);
    ComesBack(1, pending, pending[1..], [] + [Ack(1, Duplicate)], [b, c], again);
    FirstEventIsSaid(2, pending, pending, [b, c], again, RoomRefuses, Duplicate);
    var v := Holding(2, pending, pending, [], [b, c], again);
    assert !IsApplied(v.server, 1) && Ack(1, Duplicate) in v.server.answers;
  }
}
