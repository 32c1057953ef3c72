// What one undisturbed connection is good for: everything pending is put to the room once more, in order, and what
// the room has not applied yet it applies now, once (internal/webui/static/app.js, internal/ws/handler.go).

module Progress {
  import opened Rules
  import opened Browser
  import opened Delivery

  const YES := RoomAccepts(None)

  // The page connects once, and on that connection the server takes, answers and accepts everything.
  predicate IsQuiet(moves: seq<Move>, k: nat) {
    forall i :: 0 <= i < |moves| ==> moves[i] in {Connect, Take(k), Answer(k, YES, true), TakeAck}
  }

  lemma {:induction false} RunJoins(w: World, a: seq<Move>, b: seq<Move>)
    ensures Run(w, a + b) == Run(Run(w, a), b)
    decreases |b|
  {
    hide Next;
    if b == [] {
      assert a + b == a;
    } else {
      assert (a + b)[..|a + b| - 1] == a + b[..|b| - 1];
      RunJoins(w, a, b[..|b| - 1]);
    }
  }

  lemma OneMove(w: World, move: Move)
    ensures Run(w, [move]) == Next(w, move)
  {
    assert Run(w, []) == w;
    assert [move][..0] == [];
    hide Next;
  }

  // ---- What the server makes of a queue -----------------------------------------------------------

  // What can be read, and the rest.
  function Readable(events: seq<Pending>, readable: bool): seq<Pending> {
    if events == [] then []
    else (if events[0].body.decodable == readable then [events[0]] else []) + Readable(events[1..], readable)
  }

  function Above(events: seq<Pending>, cursor: int): seq<Pending> {
    if events == [] then []
    else (if events[0].sequence > cursor then [events[0]] else []) + Above(events[1..], cursor)
  }

  function AcksFor(events: seq<Pending>, cursor: int): seq<Ack> {
    if events == [] then []
    else [Ack(events[0].sequence, if events[0].sequence > cursor then Applied else Duplicate)] + AcksFor(events[1..], cursor)
  }

  ghost predicate IsAscending(events: seq<Pending>) {
    forall i, j :: 0 <= i < j < |events| ==> events[i].sequence < events[j].sequence
  }

  // The server has gone through these events.
  ghost predicate HasServed(s: Server, events: seq<Pending>, t: Server) {
    var read := Readable(events, true);
    && t.answers == s.answers + AcksFor(read, s.cursor)
    && t.applied == s.applied + Above(read, s.cursor)
    && t.subscribed == s.subscribed
  }

  lemma {:induction false} SameAbove(events: seq<Pending>, c: int, d: int)
    requires forall x :: x in events ==> (x.sequence > c <==> x.sequence > d)
    ensures AcksFor(events, c) == AcksFor(events, d) && Above(events, c) == Above(events, d)
  {
    if events != [] {
      assert forall x :: x in events[1..] ==> x in events;
      assert events[0] in events;
      SameAbove(events[1..], c, d);
    }
  }

  lemma {:induction false} ReadableAre(events: seq<Pending>, readable: bool)
    ensures forall x :: x in Readable(events, readable) <==> x in events && x.body.decodable == readable
  {
    if events != [] {
      ReadableAre(events[1..], readable);
      assert forall x :: x in events <==> x == events[0] || x in events[1..];
    }
  }

  lemma {:induction false} AcksAre(events: seq<Pending>, cursor: int)
    ensures |AcksFor(events, cursor)| == |events|
    ensures forall i :: 0 <= i < |events| ==> AcksFor(events, cursor)[i].sequence == events[i].sequence
  {
    if events != [] {
      AcksAre(events[1..], cursor);
    }
  }

  // ---- Answering ----------------------------------------------------------------------------------

  ghost predicate IsHeld(w: World, k: nat) {
    k < |w.links| && w.links[k].phase == Read && w.server.subscribed == Some(k) && IsAscending(w.links[k].toServer)
  }

  function FirstAck(x: Pending, cursor: int): seq<Ack> {
    if x.body.decodable then [Ack(x.sequence, if x.sequence > cursor then Applied else Duplicate)] else []
  }

  function FirstApplied(x: Pending, cursor: int): seq<Pending> {
    if x.body.decodable && x.sequence > cursor then [x] else []
  }

  // The oldest event is answered.
  lemma AnswersOne(w: World, k: nat)
    requires IsHeld(w, k) && w.links[k].toServer != []
    ensures var x, v := w.links[k].toServer[0], Next(w, Answer(k, YES, true));
      && v == w.(links := w.links[k := Link(w.links[k].toServer[1..], w.links[k].toPage + FirstAck(x, w.server.cursor), Read)], server := v.server)
      && v.server.answers == w.server.answers + FirstAck(x, w.server.cursor)
      && v.server.applied == w.server.applied + FirstApplied(x, w.server.cursor)
      && v.server.subscribed == w.server.subscribed
      && v.server.cursor == if x.body.decodable && x.sequence > w.server.cursor then x.sequence else w.server.cursor
  {
    var toPage, answers, applied := w.links[k].toPage, w.server.answers, w.server.applied;
    assert toPage + [] == toPage && answers + [] == answers && applied + [] == applied;
  }

  lemma FirstThenRest(q: seq<Pending>, cursor: int)
    requires q != []
    ensures var rest := Readable(q[1..], true);
      && AcksFor(Readable(q, true), cursor) == FirstAck(q[0], cursor) + AcksFor(rest, cursor)
      && Above(Readable(q, true), cursor) == FirstApplied(q[0], cursor) + Above(rest, cursor)
  {
    var rest := Readable(q[1..], true);
    if q[0].body.decodable {
      assert Readable(q, true) == [q[0]] + rest;
      assert ([q[0]] + rest)[1..] == rest;
    } else {
      assert Readable(q, true) == [] + rest == rest;
    }
  }

  lemma ServedThenServed(s: Server, t: Server, u: Server, q: seq<Pending>)
    requires q != [] && IsAscending(q) && HasServed(t, q[1..], u)
    requires t.answers == s.answers + FirstAck(q[0], s.cursor) && t.applied == s.applied + FirstApplied(q[0], s.cursor)
    requires t.subscribed == s.subscribed
    requires t.cursor == if q[0].body.decodable && q[0].sequence > s.cursor then q[0].sequence else s.cursor
    ensures HasServed(s, q, u)
    ensures AcksFor(Readable(q, true), s.cursor) == FirstAck(q[0], s.cursor) + AcksFor(Readable(q[1..], true), t.cursor)
  {
    hide Readable, AcksFor, Above, FirstAck, FirstApplied;
    RestIsLater(q, s.cursor, t.cursor);
    FirstThenRest(q, s.cursor);
  }

  lemma RestIsLater(q: seq<Pending>, c: int, d: int)
    requires q != [] && IsAscending(q) && (d == c || d == q[0].sequence > c)
    ensures var rest := Readable(q[1..], true); AcksFor(rest, c) == AcksFor(rest, d) && Above(rest, c) == Above(rest, d)
  {
    ReadableAre(q[1..], true);
    forall x | x in q[1..] ensures x.sequence > q[0].sequence {
    }
    hide Readable;
    SameAbove(Readable(q[1..], true), c, d);
  }

  lemma {:induction false} AnswersAll(w: World, k: nat) returns (moves: seq<Move>)
    requires IsHeld(w, k)
    ensures IsQuiet(moves, k)
    ensures var q, v := w.links[k].toServer, Run(w, moves);
      && v == w.(links := w.links[k := Link([], w.links[k].toPage + AcksFor(Readable(q, true), w.server.cursor), Read)], server := v.server)
      && HasServed(w.server, q, v.server)
    decreases |if k < |w.links| then w.links[k].toServer else []|
  {
    hide Next, AcksFor, Above, Readable, FirstAck, FirstApplied;
    var q := w.links[k].toServer;
    if q == [] {
      moves := [];
      NothingServed(w, k);
    } else {
      var v := Next(w, Answer(k, YES, true));
      AnswersOne(w, k);
      var rest := AnswersAll(v, k);
      moves := [Answer(k, YES, true)] + rest;
      OneMove(w, Answer(k, YES, true));
      RunJoins(w, [Answer(k, YES, true)], rest);
      hide Run, HasServed;
      ServedThenServed(w.server, v.server, Run(w, moves).server, q);
      var toPage, first, more := w.links[k].toPage, FirstAck(q[0], w.server.cursor), AcksFor(Readable(q[1..], true), v.server.cursor);
      assert (toPage + first) + more == toPage + (first + more);
      assert v.links[k := Link([], toPage + (first + more), Read)] == w.links[k := Link([], toPage + (first + more), Read)];
    }
  }

  lemma NothingServed(w: World, k: nat)
    requires IsHeld(w, k) && w.links[k].toServer == []
    ensures HasServed(w.server, [], w.server) && AcksFor(Readable([], true), w.server.cursor) == []
    ensures Run(w, []) == w && w.links[k := Link([], w.links[k].toPage + [], Read)] == w.links
  {
    assert w.links[k].toPage + [] == w.links[k].toPage;
  }

  // ---- Taking the acks ----------------------------------------------------------------------------

  ghost predicate CanTakeAll(w: World, k: nat) {
    && k < |w.links| && w.socket == Some(k) && w.page.open && QueueOk(w.page.pending, w.page.next)
    && forall a :: a in w.links[k].toPage ==> IsSafe(a.sequence)
  }

  lemma TakesOne(w: World, k: nat)
    requires CanTakeAll(w, k) && w.links[k].toPage != []
    ensures var acks, v := w.links[k].toPage, Next(w, TakeAck);
      && CanTakeAll(v, k) && v.links[k] == w.links[k].(toPage := acks[1..]) && v.server == w.server && v.issued == w.issued
      && v.page.next == w.page.next
      && forall x :: x in v.page.pending <==> x in w.page.pending && x.sequence != acks[0].sequence
  {
    hide WithoutNumber, Saved;
    WithoutNumberOk(w.page.pending, w.page.next, w.links[k].toPage[0].sequence);
  }

  lemma {:induction false} TakesAll(w: World, k: nat) returns (moves: seq<Move>)
    requires CanTakeAll(w, k)
    ensures IsQuiet(moves, k)
    ensures var acks, v := w.links[k].toPage, Run(w, moves);
      && CanTakeAll(v, k) && v.links[k] == w.links[k].(toPage := []) && v.server == w.server && v.issued == w.issued
      && v.page.next == w.page.next
      && forall x :: x in v.page.pending <==> x in w.page.pending && forall a :: a in acks ==> a.sequence != x.sequence
    decreases |if k < |w.links| then w.links[k].toPage else []|
  {
    hide Next, QueueOk;
    var acks := w.links[k].toPage;
    if acks == [] {
      moves := [];
    } else {
      var v := Next(w, TakeAck);
      TakesOne(w, k);
      var rest := TakesAll(v, k);
      moves := [TakeAck] + rest;
      OneMove(w, TakeAck);
      RunJoins(w, [TakeAck], rest);
      hide Run;
      assert forall a :: a in acks <==> a == acks[0] || a in acks[1..];
    }
  }

  // ---- One quiet connection -----------------------------------------------------------------------

  lemma Connects(w: World)
    requires IsAscending(w.page.pending)
    ensures var k, v := |w.links|, Run(w, [Connect, Take(|w.links|)]);
      && IsHeld(v, k) && v.links[k] == Link(w.page.pending, [], Read) && v.socket == Some(k)
      && v.page == w.page.(open := true) && v.server == w.server.(subscribed := Some(k)) && v.issued == w.issued
  {
    var k := |w.links|;
    hide Run;
    OneMove(w, Connect);
    OneMove(Connected(w), Take(k));
    RunJoins(w, [Connect], [Take(k)]);
    assert [Connect] + [Take(k)] == [Connect, Take(k)];
  }

  lemma QuietTogether(a: seq<Move>, b: seq<Move>, k: nat)
    requires IsQuiet(a, k) && IsQuiet(b, k)
    ensures IsQuiet(a + b, k)
  {
  }

  lemma AcksAreSafe(pending: seq<Pending>, next: int, cursor: int)
    requires QueueOk(pending, next)
    ensures forall a :: a in AcksFor(Readable(pending, true), cursor) ==> IsSafe(a.sequence)
  {
    ReadableAre(pending, true);
    AcksAre(Readable(pending, true), cursor);
    var read, acks := Readable(pending, true), AcksFor(Readable(pending, true), cursor);
    hide Readable, AcksFor;
    forall a | a in acks ensures IsSafe(a.sequence) {
      var k :| 0 <= k < |acks| && acks[k] == a;
      assert read[k] in read;
    }
  }

  lemma SettledAreThoseRead(pending: seq<Pending>, next: int, cursor: int, x: Pending)
    requires QueueOk(pending, next) && x in pending
    ensures (forall a :: a in AcksFor(Readable(pending, true), cursor) ==> a.sequence != x.sequence) <==> !x.body.decodable
  {
    ReadableAre(pending, true);
    AcksAre(Readable(pending, true), cursor);
    var read, acks := Readable(pending, true), AcksFor(Readable(pending, true), cursor);
    hide Readable, AcksFor;
    if x.body.decodable {
      var i :| 0 <= i < |read| && read[i] == x;
      assert acks[i] in acks;
    } else {
      forall a | a in acks ensures a.sequence != x.sequence {
        var k :| 0 <= k < |acks| && acks[k] == a;
        assert read[k] in read;
        var i :| 0 <= i < |pending| && pending[i] == x;
        var j :| 0 <= j < |pending| && pending[j] == read[k];
        assert i != j;
      }
    }
  }

  // However things stand, one connection on which the room accepts everything leaves nothing pending but what the
  // server cannot decode: what was pending above the cursor is applied, in order, and the rest of it is a duplicate.
  lemma OneQuietConnectionSettlesAll(w: World) returns (moves: seq<Move>)
    requires Ok(w)
    ensures IsQuiet(moves, |w.links|)
    ensures var v, pending := Run(w, moves), Readable(w.page.pending, true);
      && (forall x :: x in v.page.pending <==> x in w.page.pending && !x.body.decodable)
      && v.page.next == w.page.next
      && v.server.applied == w.server.applied + Above(pending, w.server.cursor)
      && v.server.answers == w.server.answers + AcksFor(pending, w.server.cursor)
  {
    hide Ok, Next, AcksFor, Above, Readable, QueueOk, IsQuiet;
    var k := |w.links|;
    QueueStands(w);
    Connects(w);
    var start := [Connect, Take(k)];
    StartIsQuiet(k);
    var a := Run(w, start);
    var answers := AnswersAll(a, k);
    var b := Run(a, answers);
    AcksAreSafe(w.page.pending, w.page.next, w.server.cursor);
    assert [] + AcksFor(Readable(w.page.pending, true), w.server.cursor) == AcksFor(Readable(w.page.pending, true), w.server.cursor);
    var takes := TakesAll(b, k);
    RunJoins(w, start, answers);
    RunJoins(w, start + answers, takes);
    QuietTogether(start, answers, k);
    QuietTogether(start + answers, takes, k);
    moves := start + answers + takes;
    hide Run;
    forall x | x in w.page.pending
      ensures x in Run(w, moves).page.pending <==> !x.body.decodable
    {
      SettledAreThoseRead(w.page.pending, w.page.next, w.server.cursor, x);
    }
  }

  lemma StartIsQuiet(k: nat)
    ensures IsQuiet([Connect, Take(k)], k)
  {
  }

  lemma QueueStands(w: World)
    requires Ok(w)
    ensures QueueOk(w.page.pending, w.page.next) && IsAscending(w.page.pending)
  {
    hide LinkOk;
  }

  // So after any moves at all, if everything given out can be decoded, one such connection empties the queue, and
  // every event ever given out has then been answered.
  lemma EverythingCanBeSettled(past: seq<Move>) returns (moves: seq<Move>)
    requires forall body :: body in Run(START, past).issued ==> body.decodable
    ensures var v := Run(START, past + moves);
      && v.page.pending == [] && v.page.next == Run(START, past).page.next
      && forall n :: 1 <= n < v.page.next ==> HasAnswer(v.server, n)
  {
    hide Run, Ok, HasAnswer, IsQuiet, AcksFor, Above, Readable;
    var w := Run(START, past);
    RunKeepsOk(past);
    PendingWereIssued(w);
    moves := OneQuietConnectionSettlesAll(w);
    RunJoins(START, past, moves);
    NothingIsForgotten(past + moves);
    NobodyLeft(Run(w, moves).page.pending);
  }

  lemma NobodyLeft(events: seq<Pending>)
    ensures events == [] || exists x :: x in events
  {
    assert events != [] ==> events[0] in events;
  }

  lemma PendingWereIssued(w: World)
    requires Ok(w)
    ensures forall x :: x in w.page.pending ==> x.body in w.issued
  {
    hide LinkOk, ServerOk;
  }
}
