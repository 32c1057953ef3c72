// The browser's side of reliable events (internal/webui/static/app.js): the pending queue, the
// sequence counter, and the stored session they survive a reload in.

module Browser {
  import opened Order
  import opened Rules

  const MAX_PENDING_EVENTS := 50
  const MAX_SAFE_INTEGER := 0x1f_ffff_ffff_ffff

  // What an event carries besides its number: its text, whether it is chat, and whether the server can
  // decode it.
  datatype Body = Body(text: string, chat: bool, decodable: bool)

  datatype Pending = Pending(sequence: int, body: Body)

  // What is found under the session key. An entry without a type is not an event.
  datatype Stored = Stored(sequence: int, typed: bool, body: Body)

  datatype Session = Session(next: int, pending: seq<Stored>)

  datatype Status = Applied | Rejected | Duplicate

  datatype Ack = Ack(sequence: int, status: Status)

  // The page: queue, counter, stored session, and whether its socket is open. There is a stored session
  // from the moment the server has told the page its reconnect token.
  datatype Page = Page(pending: seq<Pending>, next: int, stored: Option<Session>, open: bool)

  predicate IsSafe(n: int) {
    0 < n <= MAX_SAFE_INTEGER
  }

  // Strictly ascending, below the next number, and never more than may be kept.
  ghost predicate QueueOk(pending: seq<Pending>, next: int) {
    && |pending| <= MAX_PENDING_EVENTS
    && 1 <= next <= MAX_SAFE_INTEGER
    && (forall i, j :: 0 <= i < j < |pending| ==> pending[i].sequence < pending[j].sequence)
    && (forall i :: 0 <= i < |pending| ==> 1 <= pending[i].sequence < next)
  }

  lemma QueueInit(pending: seq<Pending>, next: int)
    requires QueueOk(pending, next) && pending != []
    ensures var init, last := pending[..|pending| - 1], pending[|pending| - 1];
      && QueueOk(init, next) && pending == init + [last] && IsSafe(last.sequence) && last.sequence < next
      && forall x :: x in init ==> x.sequence < last.sequence
  {
  }

  lemma QueueGrows(pending: seq<Pending>, next: int, last: Pending)
    requires QueueOk(pending, next) && |pending| < MAX_PENDING_EVENTS && 1 <= last.sequence < next
    requires forall x :: x in pending ==> x.sequence < last.sequence
    ensures QueueOk(pending + [last], next)
  {
    forall i | 0 <= i < |pending| ensures pending[i].sequence < last.sequence {
      assert pending[i] in pending;
    }
  }

  // ---- Saving and restoring -------------------------------------------------------------------

  function Saved(pending: seq<Pending>, next: int): Session {
    Session(next, seq(|pending|, i requires 0 <= i < |pending| => Stored(pending[i].sequence, true, pending[i].body)))
  }

  predicate IsEvent(entry: Stored) {
    IsSafe(entry.sequence) && entry.typed
  }

  // The last entry of each number.
  function Latest(stored: seq<Stored>): map<nat, Pending> {
    if stored == [] then map[]
    else
      var earlier, last := Latest(stored[..|stored| - 1]), stored[|stored| - 1];
      if IsEvent(last) then earlier[last.sequence := Pending(last.sequence, last.body)] else earlier
  }

  predicate LessNat(a: nat, b: nat) {
    a < b
  }

  lemma {:induction false} GreatestExists(numbers: set<nat>)
    requires numbers != {}
    ensures exists m :: m in numbers && forall n :: n in numbers ==> n <= m
  {
    var p :| p in numbers;
    var rest := numbers - {p};
    if rest == {} {
      assert numbers == {p};
    } else {
      GreatestExists(rest);
      var m :| m in rest && forall n :: n in rest ==> n <= m;
      var g := if p > m then p else m;
      assert forall n :: n in numbers ==> n == p || n in rest;
      assert g in numbers && forall n :: n in numbers ==> n <= g;
    }
  }

  ghost function Ascending(numbers: set<nat>): (s: seq<nat>)
    ensures Ordered(LessNat, s) && forall n :: n in s <==> n in numbers
  {
    if numbers == {} then []
    else
      GreatestExists(numbers);
      var m :| m in numbers && forall n :: n in numbers ==> n <= m;
      Ascending(numbers - {m}) + [m]
  }

  function Newest(s: seq<Pending>): seq<Pending> {
    if |s| <= MAX_PENDING_EVENTS then s else s[|s| - MAX_PENDING_EVENTS..]
  }

  function InOrderOf(numbers: seq<nat>, entries: map<nat, Pending>): seq<Pending>
    requires forall n :: n in numbers ==> n in entries
  {
    seq(|numbers|, i requires 0 <= i < |numbers| => entries[numbers[i]])
  }

  // The entries in order of their numbers, the last of each, the newest so many.
  ghost function Restored(stored: seq<Stored>): seq<Pending> {
    Newest(InOrderOf(Ascending(Latest(stored).Keys), Latest(stored)))
  }

  method RestorePendingEvents(stored: seq<Stored>) returns (pending: seq<Pending>)
    ensures pending == Restored(stored)
  {
    var bySequence: map<nat, Pending> := map[];
    for i := 0 to |stored|
      invariant bySequence == Latest(stored[..i])
    {
      assert stored[..i + 1][..i] == stored[..i];
      if IsEvent(stored[i]) {
        bySequence := bySequence[stored[i].sequence := Pending(stored[i].sequence, stored[i].body)];
      }
    }
    assert stored[..|stored|] == stored;
    var numbers: seq<nat> := [];
    var todo := bySequence.Keys;
    while todo != {}
      invariant todo <= bySequence.Keys
      invariant Ordered(LessNat, numbers) && forall n :: n in numbers <==> n in bySequence.Keys - todo
    {
      var n :| n in todo;
      numbers := InsertInOrder(LessNat, numbers, n);
      todo := todo - {n};
    }
    OrderIsUnique(LessNat, numbers, Ascending(bySequence.Keys));
    pending := InOrderOf(numbers, bySequence);
    if |pending| > MAX_PENDING_EVENTS {
      pending := pending[|pending| - MAX_PENDING_EVENTS..];
    }
  }

  lemma InOrderOfNumbers(numbers: seq<nat>, entries: map<nat, Pending>)
    requires Ordered(LessNat, numbers) && forall n :: n in numbers <==> n in entries
    requires forall n :: n in entries ==> entries[n].sequence == n && IsSafe(n)
    ensures var r := InOrderOf(numbers, entries);
      && (forall i, j :: 0 <= i < j < |r| ==> r[i].sequence < r[j].sequence)
      && (forall i :: 0 <= i < |r| ==> IsSafe(r[i].sequence))
  {
    var r := InOrderOf(numbers, entries);
    forall i | 0 <= i < |r| ensures r[i].sequence == numbers[i] && IsSafe(r[i].sequence) {
      assert numbers[i] in numbers;
    }
    forall i, j | 0 <= i < j < |r| ensures r[i].sequence < r[j].sequence {
      assert LessNat(numbers[i], numbers[j]);
    }
  }

  lemma NewestInOrder(s: seq<Pending>)
    requires forall i, j :: 0 <= i < j < |s| ==> s[i].sequence < s[j].sequence
    requires forall i :: 0 <= i < |s| ==> IsSafe(s[i].sequence)
    ensures var r := Newest(s);
      && |r| <= MAX_PENDING_EVENTS
      && (forall i, j :: 0 <= i < j < |r| ==> r[i].sequence < r[j].sequence)
      && (forall i :: 0 <= i < |r| ==> IsSafe(r[i].sequence))
  {
  }

  // Whatever is found in storage, the queue restored is well formed.
  lemma RestoredIsOrdered(stored: seq<Stored>)
    ensures var r := Restored(stored);
      && |r| <= MAX_PENDING_EVENTS
      && (forall i, j :: 0 <= i < j < |r| ==> r[i].sequence < r[j].sequence)
      && (forall i :: 0 <= i < |r| ==> IsSafe(r[i].sequence))
  {
    LatestIsKeyed(stored);
    hide Ascending, Latest, Ordered, InOrderOf, Newest;
    InOrderOfNumbers(Ascending(Latest(stored).Keys), Latest(stored));
    NewestInOrder(InOrderOf(Ascending(Latest(stored).Keys), Latest(stored)));
  }

  lemma {:induction false} LatestIsKeyed(stored: seq<Stored>)
    ensures forall n :: n in Latest(stored) ==> Latest(stored)[n].sequence == n && IsSafe(n)
  {
    if stored != [] {
      LatestIsKeyed(stored[..|stored| - 1]);
    }
  }

  // ---- Restoring undoes saving ----------------------------------------------------------------

  function Numbers(pending: seq<Pending>): seq<int> {
    seq(|pending|, i requires 0 <= i < |pending| => pending[i].sequence)
  }

  lemma NumbersGrow(pending: seq<Pending>, last: Pending)
    ensures Numbers(pending + [last]) == Numbers(pending) + [last.sequence]
  {
  }

  lemma SavedGrows(pending: seq<Pending>, last: Pending, next: int)
    requires IsSafe(last.sequence)
    ensures Latest(Saved(pending + [last], next).pending) == Latest(Saved(pending, next).pending)[last.sequence := last]
  {
    var saved := Saved(pending + [last], next).pending;
    assert saved[..|saved| - 1] == Saved(pending, next).pending;
  }

  lemma {:induction false} LatestOfSaved(pending: seq<Pending>, next: int)
    requires QueueOk(pending, next)
    ensures var entries := Latest(Saved(pending, next).pending);
      && (forall n :: n in entries <==> n in Numbers(pending))
      && (forall x :: x in pending ==> x.sequence in entries && entries[x.sequence] == x)
    decreases |pending|
  {
    if pending == [] {
    } else {
      var init, last := pending[..|pending| - 1], pending[|pending| - 1];
      QueueInit(pending, next);
      hide QueueOk;
      LatestOfSaved(init, next);
      SavedGrows(init, last, next);
      NumbersGrow(init, last);
      hide Latest, Saved, Numbers;
    }
  }

  lemma RestoreUndoesSave(pending: seq<Pending>, next: int)
    requires QueueOk(pending, next)
    ensures Restored(Saved(pending, next).pending) == pending
  {
    hide Saved, Latest, Ascending;
    var entries := Latest(Saved(pending, next).pending);
    LatestOfSaved(pending, next);
    assert forall i :: 0 <= i < |pending| ==> pending[i] in pending;
    var numbers: seq<nat> := seq(|pending|, i requires 0 <= i < |pending| => pending[i].sequence);
    assert Numbers(pending) == numbers;
    assert Ordered(LessNat, numbers);
    hide QueueOk;
    forall n ensures n in numbers <==> n in entries.Keys {
    }
    OrderIsUnique(LessNat, numbers, Ascending(entries.Keys));
    hide Ordered;
    assert InOrderOf(numbers, entries) == pending;
  }

  // ---- The page's operations ------------------------------------------------------------------

  function Persisted(page: Page): Page {
    if page.stored.Some? then page.(stored := Some(Saved(page.pending, page.next))) else page
  }

  function TokenTold(page: Page): Page {
    page.(stored := Some(Saved(page.pending, page.next)))
  }

  predicate MaySend(page: Page) {
    page.open && |page.pending| < MAX_PENDING_EVENTS
  }

  function SentEvent(page: Page, body: Body): Page {
    if !MaySend(page) then page
    else Persisted(page.(pending := page.pending + [Pending(page.next, body)], next := page.next + 1))
  }

  function WithoutNumber(pending: seq<Pending>, sequence: int): seq<Pending> {
    if pending == [] then []
    else
      var rest := WithoutNumber(pending[..|pending| - 1], sequence);
      var last := pending[|pending| - 1];
      if last.sequence != sequence then rest + [last] else rest
  }

  function Acknowledged(page: Page, ack: Ack): Page {
    if !IsSafe(ack.sequence) then page
    else Persisted(page.(pending := WithoutNumber(page.pending, ack.sequence)))
  }

  function Highest(pending: seq<Pending>): int {
    if pending == [] then 0
    else
      var rest, last := Highest(pending[..|pending| - 1]), pending[|pending| - 1].sequence;
      if rest < last then last else rest
  }

  function NextAfter(session: Option<Session>, pending: seq<Pending>): int {
    var kept := if session.Some? && IsSafe(session.value.next) then session.value.next else 1;
    var above := Highest(pending) + 1;
    if kept < above then above else kept
  }

  ghost function Rejoined(stored: Option<Session>): Page {
    var pending := if stored.Some? then Restored(stored.value.pending) else [];
    Page(pending, NextAfter(stored, pending), stored, false)
  }

  lemma {:induction false} HighestIsLast(pending: seq<Pending>, next: int)
    requires QueueOk(pending, next)
    ensures 0 <= Highest(pending) < next
    ensures pending != [] ==> Highest(pending) == pending[|pending| - 1].sequence
    decreases |pending|
  {
    if pending != [] {
      HighestIsLast(pending[..|pending| - 1], next);
    }
  }

  // A reload brings back the queue and the counter exactly.
  lemma ReloadChangesNothing(page: Page)
    requires QueueOk(page.pending, page.next) && page.stored == Some(Saved(page.pending, page.next))
    ensures Rejoined(page.stored).pending == page.pending && Rejoined(page.stored).next == page.next
  {
    RestoreUndoesSave(page.pending, page.next);
    HighestIsLast(page.pending, page.next);
    hide Restored;
  }

  lemma SizeOk(pending: seq<Pending>, next: int)
    requires QueueOk(pending, next)
    ensures |pending| <= MAX_PENDING_EVENTS
  {
  }

  lemma {:induction false} WithoutNumberOk(pending: seq<Pending>, next: int, sequence: int)
    requires QueueOk(pending, next)
    ensures QueueOk(WithoutNumber(pending, sequence), next)
    ensures forall x :: x in WithoutNumber(pending, sequence) <==> x in pending && x.sequence != sequence
    ensures |WithoutNumber(pending, sequence)| <= |pending|
    decreases |pending|
  {
    if pending == [] {
    } else {
      var init, last := pending[..|pending| - 1], pending[|pending| - 1];
      QueueInit(pending, next);
      hide QueueOk;
      WithoutNumberOk(init, next, sequence);
      assert |WithoutNumber(init, sequence)| < |pending| <= MAX_PENDING_EVENTS by {
        SizeOk(pending, next);
      }
      if last.sequence != sequence {
        QueueGrows(WithoutNumber(init, sequence), next, last);
      }
    }
  }

  // The program's own page, updated in place; what is sent on the socket goes to the outbox.
  class App {
    var pending: seq<Pending>
    var next: int
    var stored: Option<Session>
    var open: bool
    var outbox: seq<Pending>

    ghost function View(): Page
      reads this
    {
      Page(pending, next, stored, open)
    }

    constructor ()
      ensures View() == Page([], 1, None, false) && outbox == []
    {
      pending, next, stored, open, outbox := [], 1, None, false, [];
    }

    // Without a token, told now or stored before, there is no session to save.
    method SaveCurrentSession(told: bool)
      modifies this`stored
      ensures View() == if told then TokenTold(old(View())) else Persisted(old(View()))
    {
      if !told && stored.None? {
        return;
      }
      stored := Some(Saved(pending, next));
    }

    method SendEvent(body: Body) returns (queued: bool)
      modifies this
      ensures queued == MaySend(old(View())) && View() == SentEvent(old(View()), body)
      ensures outbox == if queued then old(outbox) + [Pending(old(next), body)] else old(outbox)
    {
      if !open {
        return false;
      }
      if |pending| >= MAX_PENDING_EVENTS {
        return false;
      }
      var sequence := next;
      next := next + 1;
      pending := pending + [Pending(sequence, body)];
      SaveCurrentSession(false);
      outbox := outbox + [Pending(sequence, body)];
      return true;
    }

    method HandleEventAck(ack: Ack)
      modifies this
      ensures View() == Acknowledged(old(View()), ack) && outbox == old(outbox)
    {
      if !IsSafe(ack.sequence) {
        return;
      }
      var kept: seq<Pending> := [];
      for i := 0 to |pending|
        invariant kept == WithoutNumber(pending[..i], ack.sequence)
        invariant View() == old(View()) && outbox == old(outbox)
      {
        assert pending[..i + 1][..i] == pending[..i];
        if pending[i].sequence != ack.sequence {
          kept := kept + [pending[i]];
        }
      }
      assert pending[..|pending|] == pending;
      pending := kept;
      SaveCurrentSession(false);
    }

    // Everything pending goes out again, in order of number; a well-formed queue goes out as it is.
    method ReplayPendingEvents()
      modifies this`outbox
      ensures open ==> |outbox| >= |old(outbox)| && outbox[..|old(outbox)|] == old(outbox) && IsSortOf(pending, outbox[|old(outbox)|..])
      ensures open && QueueOk(pending, next) ==> outbox == old(outbox) + pending
      ensures !open ==> outbox == old(outbox)
    {
      if !open {
        return;
      }
      var sorted := SortBySequence(pending);
      if QueueOk(pending, next) {
        QueueIsSorted(pending, next);
        SortIsUnique(sorted, pending);
      }
      hide IsSortOf, QueueOk;
      for i := 0 to |sorted|
        invariant outbox == old(outbox) + sorted[..i]
      {
        outbox := outbox + [sorted[i]];
      }
      assert sorted[..|sorted|] == sorted;
      assert (old(outbox) + sorted)[|old(outbox)|..] == sorted;
    }

    // Joining again with whatever was stored.
    method JoinRoom()
      modifies this
      ensures View() == Rejoined(old(stored)) && outbox == old(outbox)
    {
      hide Restored;
      open := false;
      pending := [];
      if stored.Some? {
        pending := RestorePendingEvents(stored.value.pending);
      }
      var highest := 0;
      for i := 0 to |pending|
        invariant highest == Highest(pending[..i])
      {
        assert pending[..i + 1][..i] == pending[..i];
        if highest < pending[i].sequence {
          highest := pending[i].sequence;
        }
      }
      assert pending[..|pending|] == pending;
      var kept := if stored.Some? && IsSafe(stored.value.next) then stored.value.next else 1;
      next := if kept < highest + 1 then highest + 1 else kept;
    }
  }

  // ---- Sorting a queue ------------------------------------------------------------------------

  ghost predicate BySequence(s: seq<Pending>) {
    forall i, j :: 0 <= i < j < |s| ==> s[i].sequence <= s[j].sequence
  }

  // The entries of one number, in the order they come in.
  function Only(s: seq<Pending>, n: int): seq<Pending> {
    if s == [] then []
    else
      var rest, last := Only(s[..|s| - 1], n), s[|s| - 1];
      if last.sequence == n then rest + [last] else rest
  }

  // The entries of s in order of number, those of one number as they came.
  ghost predicate IsSortOf(s: seq<Pending>, t: seq<Pending>) {
    BySequence(t) && forall n :: Only(t, n) == Only(s, n)
  }

  lemma {:induction false} OnlyJoins(a: seq<Pending>, b: seq<Pending>, n: int)
    ensures Only(a + b, n) == Only(a, n) + Only(b, n)
    decreases |b|
  {
    if b == [] {
      assert a + b == a;
    } else {
      assert (a + b)[..|a + b| - 1] == a + b[..|b| - 1];
      OnlyJoins(a, b[..|b| - 1], n);
    }
  }

  lemma {:induction false} OnlyMembers(s: seq<Pending>, n: int)
    ensures forall x :: x in Only(s, n) <==> x in s && x.sequence == n
  {
    if s != [] {
      OnlyMembers(s[..|s| - 1], n);
      assert s == s[..|s| - 1] + [s[|s| - 1]];
    }
  }

  lemma LastIsGreatest(s: seq<Pending>, x: Pending)
    requires BySequence(s) && x in s
    ensures x.sequence <= s[|s| - 1].sequence
  {
    var i :| 0 <= i < |s| && s[i] == x;
    assert i < |s| - 1 ==> s[i].sequence <= s[|s| - 1].sequence;
  }

  lemma SortedInit(s: seq<Pending>)
    requires BySequence(s) && s != []
    ensures BySequence(s[..|s| - 1]) && s == s[..|s| - 1] + [s[|s| - 1]]
  {
  }

  // There is only one stable sort.
  lemma {:induction false} SortIsUnique(t: seq<Pending>, u: seq<Pending>)
    requires BySequence(t) && BySequence(u) && forall n :: Only(t, n) == Only(u, n)
    ensures t == u
    decreases |t| + |u|
  {
    hide BySequence;
    if t != [] {
      SameGreatest(t, u);
    }
    if u != [] {
      SameGreatest(u, t);
    }
    if t != [] {
      var m := t[|t| - 1].sequence;
      var a, b := t[..|t| - 1], u[..|u| - 1];
      SortedInit(t);
      SortedInit(u);
      assert Only(t, m) == Only(a, m) + [t[|t| - 1]] && Only(u, m) == Only(b, m) + [u[|u| - 1]];
      assert Only(t, m)[|Only(t, m)| - 1] == t[|t| - 1] && Only(u, m)[|Only(u, m)| - 1] == u[|u| - 1];
      assert Only(t, m)[..|Only(t, m)| - 1] == Only(a, m) && Only(u, m)[..|Only(u, m)| - 1] == Only(b, m);
      forall n ensures Only(a, n) == Only(b, n) {
        assert Only(t, n) == Only(u, n);
      }
      SortIsUnique(a, b);
    }
  }

  lemma SameGreatest(t: seq<Pending>, u: seq<Pending>)
    requires t != [] && BySequence(t) && BySequence(u) && forall n :: Only(t, n) == Only(u, n)
    ensures u != [] && u[|u| - 1].sequence >= t[|t| - 1].sequence
  {
    var last := t[|t| - 1];
    OnlyMembers(t, last.sequence);
    OnlyMembers(u, last.sequence);
    assert last in Only(t, last.sequence);
    hide BySequence, Only;
    LastIsGreatest(u, last);
  }

  lemma QueueIsSorted(pending: seq<Pending>, next: int)
    requires QueueOk(pending, next)
    ensures BySequence(pending)
  {
  }

  lemma InOrderAround(a: seq<Pending>, x: Pending, b: seq<Pending>)
    requires BySequence(a) && BySequence(b)
    requires forall y :: y in a ==> y.sequence <= x.sequence
    requires forall y :: y in b ==> x.sequence < y.sequence
    ensures BySequence(a + [x] + b)
  {
    var all := a + [x] + b;
    forall i, j | 0 <= i < j < |all| ensures all[i].sequence <= all[j].sequence {
      if i < |a| {
        assert all[i] in a;
        if j > |a| {
          assert all[j] in b;
        }
      } else {
        assert all[j] in b;
      }
    }
  }

  lemma SplitInOrder(sorted: seq<Pending>, at: nat, x: Pending)
    requires BySequence(sorted) && at <= |sorted|
    requires at > 0 ==> sorted[at - 1].sequence <= x.sequence
    requires forall j :: at <= j < |sorted| ==> sorted[j].sequence > x.sequence
    ensures BySequence(sorted[..at]) && BySequence(sorted[at..])
    ensures forall y :: y in sorted[..at] ==> y.sequence <= x.sequence
    ensures forall y :: y in sorted[at..] ==> x.sequence < y.sequence
  {
  }

  // Put in after the last entry not above it, an entry comes last among those of its number.
  lemma InsertedInOrder(sorted: seq<Pending>, at: nat, x: Pending)
    requires BySequence(sorted) && at <= |sorted|
    requires at > 0 ==> sorted[at - 1].sequence <= x.sequence
    requires forall j :: at <= j < |sorted| ==> sorted[j].sequence > x.sequence
    ensures BySequence(sorted[..at] + [x] + sorted[at..])
    ensures forall n :: Only(sorted[..at] + [x] + sorted[at..], n) == Only(sorted, n) + Only([x], n)
  {
    hide BySequence, Only;
    var a, b := sorted[..at], sorted[at..];
    SplitInOrder(sorted, at, x);
    InOrderAround(a, x, b);
    assert sorted == a + b;
    forall n ensures Only(a + [x] + b, n) == Only(sorted, n) + Only([x], n) {
      LastOfItsNumber(a, x, b, n);
    }
  }

  lemma LastOfItsNumber(a: seq<Pending>, x: Pending, b: seq<Pending>, n: int)
    requires forall y :: y in b ==> y.sequence > x.sequence
    ensures Only(a + [x] + b, n) == Only(a + b, n) + Only([x], n)
  {
    OnlyMembers(b, n);
    OnlyMembers([x], n);
    hide Only;
    OnlyJoins(a + [x], b, n);
    OnlyJoins(a, [x], n);
    OnlyJoins(a, b, n);
    if n > x.sequence {
      NobodyIsNothing(Only([x], n));
    } else {
      NobodyIsNothing(Only(b, n));
    }
  }

  lemma NobodyIsNothing(s: seq<Pending>)
    ensures s == [] || exists x :: x in s
  {
    if s != [] {
      assert s[0] in s;
    }
  }

  method SortBySequence(s: seq<Pending>) returns (sorted: seq<Pending>)
    ensures IsSortOf(s, sorted)
  {
    sorted := [];
    for i := 0 to |s|
      invariant BySequence(sorted)
      invariant forall n :: Only(sorted, n) == Only(s[..i], n)
    {
      hide BySequence, Only;
      var at := |sorted|;
      while at > 0 && sorted[at - 1].sequence > s[i].sequence
        invariant 0 <= at <= |sorted|
        invariant forall j :: at <= j < |sorted| ==> sorted[j].sequence > s[i].sequence
      {
        at := at - 1;
      }
      assert s[..i + 1] == s[..i] + [s[i]];
      InsertedInOrder(sorted, at, s[i]);
      forall n ensures Only(s[..i + 1], n) == Only(s[..i], n) + Only([s[i]], n) {
        OnlyJoins(s[..i], [s[i]], n);
      }
      sorted := sorted[..at] + [s[i]] + sorted[at..];
    }
    assert s[..|s|] == s;
  }
}
