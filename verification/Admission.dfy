// The per-address admission table (internal/ws/admission.go): entries come and go with a time to
// live. Nobody can tell it from a table that forgets nothing exactly when a bucket for connections left
// alone for that long is full again, and one for rooms is too unless it never runs out before the other.

module Admission {
  import opened TokenBucket

  const ENTRY_TTL := 600.0

  datatype Address = Address(text: string)

  datatype ConnectionLimits = ConnectionLimits(connections: RateLimit, maxPerIp: int, roomCreates: RateLimit) {
    predicate Valid() {
      connections.Valid() && maxPerIp > 0 && roomCreates.Valid()
    }
  }

  const DEFAULT_LIMITS := ConnectionLimits(RateLimit(2.0, 10), 20, RateLimit(0.2, 5))

  datatype Entry = Entry(connections: int, connectionBucket: Bucket, roomBucket: Bucket, lastSeen: real)

  type Table = map<Address, Entry>

  // A second release of the same lease does nothing and is answered AlreadyReleased here.
  datatype Verdict =
    | Granted | ConnectionRateLimited | ConnectionLimitReached | RoomCreationRateLimited
    | Released | AlreadyReleased

  datatype Op = Acquire(who: Address, creating: bool, at: real) | Release(who: Address, at: real)

  // leases holds the addresses of the leases granted and not yet released.
  datatype System = System(table: Table, leases: multiset<Address>)

  const EMPTY: System := System(map[], multiset{})

  // ---- The table ------------------------------------------------------------------------------

  predicate IsExpired(entry: Entry, now: real) {
    entry.connections == 0 && now - entry.lastSeen >= ENTRY_TTL
  }

  function Surviving(table: Table, now: real): Table {
    map a | a in table && !IsExpired(table[a], now) :: table[a]
  }

  function NewEntry(limits: ConnectionLimits, now: real): Entry {
    Entry(0, NewBucket(limits.connections, now), NewBucket(limits.roomCreates, now), now)
  }

  function EntryFor(limits: ConnectionLimits, table: Table, who: Address, now: real): Entry {
    if who in table then table[who].(lastSeen := now) else NewEntry(limits, now)
  }

  function Judged(limits: ConnectionLimits, entry: Entry, creating: bool, now: real): (Verdict, Entry) {
    var spent := entry.(connectionBucket := After(entry.connectionBucket, now));
    if !Allowed(entry.connectionBucket, now) then (ConnectionRateLimited, spent)
    else if entry.connections >= limits.maxPerIp then (ConnectionLimitReached, spent)
    else
      var created := if creating then spent.(roomBucket := After(entry.roomBucket, now)) else spent;
      if creating && !Allowed(entry.roomBucket, now) then (RoomCreationRateLimited, created)
      else (Granted, created.(connections := entry.connections + 1))
  }

  function Step(limits: ConnectionLimits, evicting: bool, s: System, op: Op): (Verdict, System) {
    match op
    case Acquire(who, creating, now) =>
      var table := if evicting then Surviving(s.table, now) else s.table;
      var (verdict, entry) := Judged(limits, EntryFor(limits, table, who, now), creating, now);
      (verdict, System(table[who := entry], if verdict == Granted then s.leases + multiset{who} else s.leases))
    case Release(who, now) =>
      if who !in s.leases then (AlreadyReleased, s)
      else
        (Released, System(
          if who !in s.table then s.table
          else
            var entry := s.table[who];
            s.table[who := entry.(connections := if entry.connections > 0 then entry.connections - 1 else entry.connections, lastSeen := now)],
          s.leases - multiset{who}))
  }

  function Run(limits: ConnectionLimits, evicting: bool, s: System, ops: seq<Op>): System
    decreases |ops|
  {
    if ops == [] then s else Run(limits, evicting, Step(limits, evicting, s, ops[0]).1, ops[1..])
  }

  function Verdicts(limits: ConnectionLimits, evicting: bool, s: System, ops: seq<Op>): seq<Verdict>
    decreases |ops|
  {
    if ops == [] then []
    else
      var (verdict, next) := Step(limits, evicting, s, ops[0]);
      [verdict] + Verdicts(limits, evicting, next, ops[1..])
  }

  // ---- Leases ---------------------------------------------------------------------------------

  // Every entry counts the leases outstanding for its address, and there is one wherever there are.
  ghost predicate LeasesCounted(limits: ConnectionLimits, s: System) {
    && (forall a :: a in s.table ==> s.table[a].connections == s.leases[a] && s.leases[a] <= limits.maxPerIp)
    && (forall a :: a in s.leases ==> a in s.table)
  }

  lemma AcquireCountsLeases(limits: ConnectionLimits, table: Table, leases: multiset<Address>, who: Address, creating: bool, now: real)
    requires limits.Valid() && LeasesCounted(limits, System(table, leases))
    ensures var (verdict, entry) := Judged(limits, EntryFor(limits, table, who, now), creating, now);
      LeasesCounted(limits, System(table[who := entry], if verdict == Granted then leases + multiset{who} else leases))
  {
    var (verdict, entry) := Judged(limits, EntryFor(limits, table, who, now), creating, now);
    assert leases[who] == EntryFor(limits, table, who, now).connections <= limits.maxPerIp;
    assert entry.connections == leases[who] + if verdict == Granted then 1 else 0;
    assert entry.connections <= limits.maxPerIp;
    hide Judged, EntryFor;
  }

  lemma StepCountsLeases(limits: ConnectionLimits, evicting: bool, s: System, op: Op)
    requires limits.Valid() && LeasesCounted(limits, s)
    ensures LeasesCounted(limits, Step(limits, evicting, s, op).1)
  {
    hide After, Allowed;
    if op.Acquire? {
      var table := if evicting then Surviving(s.table, op.at) else s.table;
      SurvivorsCountLeases(limits, s, op.at);
      hide Surviving, IsExpired, LeasesCounted, Judged, EntryFor;
      AcquireCountsLeases(limits, table, s.leases, op.who, op.creating, op.at);
    }
  }

  lemma SurvivorsCountLeases(limits: ConnectionLimits, s: System, now: real)
    requires LeasesCounted(limits, s)
    ensures LeasesCounted(limits, System(Surviving(s.table, now), s.leases))
  {
  }

  // At all times each entry's count is the number of leases outstanding for its address, at most the
  // limit; so a release always finds its entry, with a count above zero.
  lemma {:induction false} CountsAreLeases(limits: ConnectionLimits, evicting: bool, s: System, ops: seq<Op>)
    requires limits.Valid() && LeasesCounted(limits, s)
    ensures var t := Run(limits, evicting, s, ops);
      && LeasesCounted(limits, t)
      && forall a :: a in t.leases ==> a in t.table && t.table[a].connections > 0
    decreases |ops|
  {
    if ops == [] {
    } else {
      StepCountsLeases(limits, evicting, s, ops[0]);
      hide Step, LeasesCounted;
      CountsAreLeases(limits, evicting, Step(limits, evicting, s, ops[0]).1, ops[1..]);
    }
  }

  // The program's own table, updated in place. The ghost leases are those handed out and not released.
  class AdmissionLimiter {
    const limits: ConnectionLimits
    var entries: Table
    ghost var leases: multiset<Address>

    ghost function View(): System
      reads this
    {
      System(entries, leases)
    }

    ghost predicate Valid()
      reads this
    {
      limits.Valid() && LeasesCounted(limits, View())
    }

    constructor (limits: ConnectionLimits)
      requires limits.Valid()
      ensures Valid() && View() == EMPTY && this.limits == limits
    {
      this.limits, entries, leases := limits, map[], multiset{};
    }

    method RemoveExpired(now: real)
      modifies this`entries
      ensures entries == Surviving(old(entries), now)
    {
      var todo := entries.Keys;
      while todo != {}
        invariant todo <= old(entries).Keys && entries.Keys == todo + Surviving(old(entries), now).Keys
        invariant forall a :: a in entries ==> entries[a] == old(entries)[a]
      {
        var a :| a in todo;
        if IsExpired(entries[a], now) {
          entries := entries - {a};
        }
        todo := todo - {a};
      }
    }

    method TryAcquire(who: Address, creating: bool, now: real) returns (verdict: Verdict)
      requires Valid()
      modifies this
      ensures Valid()
      ensures (verdict, View()) == Step(limits, true, old(View()), Acquire(who, creating, now))
    {
      StepCountsLeases(limits, true, View(), Acquire(who, creating, now));
      hide LeasesCounted, Judged, Surviving, NewEntry;
      RemoveExpired(now);
      var entry := if who in entries then entries[who] else NewEntry(limits, now);
      entry := entry.(lastSeen := now);
      verdict, entry := Judge(entry, creating, now);
      entries := entries[who := entry];
      if verdict == Granted {
        leases := leases + multiset{who};
      }
    }

    method Judge(seen: Entry, creating: bool, now: real) returns (verdict: Verdict, entry: Entry)
      ensures (verdict, entry) == Judged(limits, seen, creating, now)
    {
      hide After, Allowed;
      entry := seen;
      var allowed := Allowed(entry.connectionBucket, now);
      entry := entry.(connectionBucket := After(entry.connectionBucket, now));
      if !allowed {
        return ConnectionRateLimited, entry;
      }
      if entry.connections >= limits.maxPerIp {
        return ConnectionLimitReached, entry;
      }
      if creating {
        allowed := Allowed(entry.roomBucket, now);
        entry := entry.(roomBucket := After(entry.roomBucket, now));
        if !allowed {
          return RoomCreationRateLimited, entry;
        }
      }
      return Granted, entry.(connections := entry.connections + 1);
    }

    // Called at most once for each lease granted.
    method GiveBack(who: Address, now: real)
      requires Valid() && who in leases
      modifies this
      ensures Valid()
      ensures (Released, View()) == Step(limits, true, old(View()), Release(who, now))
    {
      StepCountsLeases(limits, true, View(), Release(who, now));
      hide LeasesCounted;
      if who in entries {
        var entry := entries[who];
        if entry.connections > 0 {
          entry := entry.(connections := entry.connections - 1);
        }
        entries := entries[who := entry.(lastSeen := now)];
      }
      leases := leases - multiset{who};
    }
  }

  // ---- What an acquire is answered ------------------------------------------------------------

  // The entry a caller finds, swept first where entries are evicted.
  function Found(limits: ConnectionLimits, evicting: bool, s: System, who: Address, now: real): Entry {
    EntryFor(limits, if evicting then Surviving(s.table, now) else s.table, who, now)
  }

  lemma FoundCountsLeases(limits: ConnectionLimits, evicting: bool, s: System, who: Address, now: real)
    requires LeasesCounted(limits, s)
    ensures Found(limits, evicting, s, who, now).connections == s.leases[who] && (limits.maxPerIp > 0 ==> s.leases[who] <= limits.maxPerIp)
  {
  }

  // Over any run, evicting or not, an acquire is answered by these and nothing else: a whole token for a
  // connection, fewer leases outstanding than the limit, and a whole token for a room if it creates one.
  lemma AcquireIsAnsweredExactly(limits: ConnectionLimits, evicting: bool, ops: seq<Op>, who: Address, creating: bool, now: real)
    requires limits.Valid()
    ensures var s := Run(limits, evicting, EMPTY, ops);
      var entry, verdict := Found(limits, evicting, s, who, now), Step(limits, evicting, s, Acquire(who, creating, now)).0;
      var connections, rooms := Refilled(entry.connectionBucket, now).tokens, Refilled(entry.roomBucket, now).tokens;
      && s.leases[who] <= limits.maxPerIp
      && (verdict == ConnectionRateLimited <==> connections < 1.0)
      && (verdict == ConnectionLimitReached <==> connections >= 1.0 && s.leases[who] == limits.maxPerIp)
      && (verdict == RoomCreationRateLimited <==> connections >= 1.0 && s.leases[who] < limits.maxPerIp && creating && rooms < 1.0)
      && (verdict == Granted <==> connections >= 1.0 && s.leases[who] < limits.maxPerIp && (creating ==> rooms >= 1.0))
  {
    hide Refilled, After, LeasesCounted, Surviving, Run;
    NothingCounted(limits);
    CountsAreLeases(limits, evicting, EMPTY, ops);
    FoundCountsLeases(limits, evicting, Run(limits, evicting, EMPTY, ops), who, now);
    hide EntryFor;
  }

  lemma NothingCounted(limits: ConnectionLimits)
    ensures LeasesCounted(limits, EMPTY)
  {
  }

  // ---- What a table that never evicts remembers -----------------------------------------------

  lemma {:induction false} OneMoreOp(limits: ConnectionLimits, evicting: bool, s: System, ops: seq<Op>, op: Op)
    ensures Run(limits, evicting, s, ops + [op]) == Step(limits, evicting, Run(limits, evicting, s, ops), op).1
    decreases |ops|
  {
    hide Step;
    if ops == [] {
      assert ops + [op] == [op];
      assert [op][1..] == [];
    } else {
      assert (ops + [op])[1..] == ops[1..] + [op];
      OneMoreOp(limits, evicting, Step(limits, evicting, s, ops[0]).1, ops[1..], op);
    }
  }

  // The verdict of the last of these.
  function LastVerdict(limits: ConnectionLimits, ops: seq<Op>): Verdict
    requires ops != []
  {
    Step(limits, false, Run(limits, false, EMPTY, ops[..|ops| - 1]), ops[|ops| - 1]).0
  }

  // The leases granted to an address and not released.
  function Outstanding(limits: ConnectionLimits, ops: seq<Op>, who: Address): int {
    if ops == [] then 0
    else
      var before, last := Outstanding(limits, ops[..|ops| - 1], who), ops[|ops| - 1];
      if last.who != who then before
      else if LastVerdict(limits, ops) == Granted then before + 1
      else if LastVerdict(limits, ops) == Released then before - 1
      else before
  }

  // When an address has called, and when a call of its got as far as the bucket for rooms.
  function CallsOf(ops: seq<Op>, who: Address): seq<real> {
    if ops == [] then []
    else
      var last := ops[|ops| - 1];
      CallsOf(ops[..|ops| - 1], who) + if last.Acquire? && last.who == who then [last.at] else []
  }

  function RoomCallsOf(limits: ConnectionLimits, ops: seq<Op>, who: Address): seq<real> {
    if ops == [] then []
    else
      var last := ops[|ops| - 1];
      RoomCallsOf(limits, ops[..|ops| - 1], who)
      + if last.Acquire? && last.who == who && last.creating && LastVerdict(limits, ops) in {Granted, RoomCreationRateLimited} then [last.at] else []
  }

  // The buckets are what all those calls leave of new ones.
  ghost predicate IsRemembered(limits: ConnectionLimits, ops: seq<Op>, who: Address) {
    var s, calls := Run(limits, false, EMPTY, ops), CallsOf(ops, who);
    && s.leases[who] == Outstanding(limits, ops, who)
    && (who in s.table <==> calls != [])
    && (calls == [] ==> RoomCallsOf(limits, ops, who) == [] && s.leases[who] == 0)
    && (calls != [] ==>
        && s.table[who].connectionBucket == AfterAll(NewBucket(limits.connections, calls[0]), calls)
        && s.table[who].roomBucket == AfterAll(NewBucket(limits.roomCreates, calls[0]), RoomCallsOf(limits, ops, who)))
  }

  lemma OthersLeaveIt(limits: ConnectionLimits, s: System, op: Op, who: Address)
    requires op.who != who
    ensures var t := Step(limits, false, s, op).1;
      t.leases[who] == s.leases[who] && (who in t.table <==> who in s.table) && (who in s.table ==> t.table[who] == s.table[who])
  {
    hide Judged, EntryFor;
  }

  lemma ReleaseLeavesBuckets(limits: ConnectionLimits, s: System, who: Address, now: real)
    requires LeasesCounted(limits, s)
    ensures var (v, t) := Step(limits, false, s, Release(who, now));
      && t.leases[who] == s.leases[who] - (if v == Released then 1 else 0) && v != Granted
      && (who in t.table <==> who in s.table)
      && (who in s.table ==> t.table[who].connectionBucket == s.table[who].connectionBucket && t.table[who].roomBucket == s.table[who].roomBucket)
  {
  }

  lemma AcquireCalls(limits: ConnectionLimits, s: System, who: Address, creating: bool, now: real)
    ensures var (v, t) := Step(limits, false, s, Acquire(who, creating, now));
      var entry := if who in s.table then s.table[who] else NewEntry(limits, now);
      && t.leases[who] == s.leases[who] + (if v == Granted then 1 else 0) && v != Released && who in t.table
      && t.table[who].connectionBucket == After(entry.connectionBucket, now)
      && t.table[who].roomBucket ==
        if creating && v in {Granted, RoomCreationRateLimited} then After(entry.roomBucket, now) else entry.roomBucket
  {
    hide After, Allowed;
  }

  lemma {:induction false} CallsAreRemembered(limits: ConnectionLimits, ops: seq<Op>, who: Address)
    requires limits.Valid()
    ensures IsRemembered(limits, ops, who)
    decreases |ops|
  {
    hide Step, After, LeasesCounted, Run;
    if ops == [] {
      NothingRemembered(limits, who);
    } else {
      var init, op := ops[..|ops| - 1], ops[|ops| - 1];
      assert ops == init + [op];
      CallsAreRemembered(limits, init, who);
      OneMoreOp(limits, false, EMPTY, init, op);
      NothingCounted(limits);
      CountsAreLeases(limits, false, EMPTY, init);
      var s := Run(limits, false, EMPTY, init);
      if op.Acquire? && op.who == who {
        AcquireIsRemembered(limits, init, op);
      } else {
        NoCall(limits, init, op, who);
        if op.who != who {
          OthersLeaveIt(limits, s, op, who);
        } else {
          ReleaseLeavesBuckets(limits, s, who, op.at);
        }
        hide AfterAll, CallsOf, RoomCallsOf;
      }
    }
  }

  lemma NoCall(limits: ConnectionLimits, init: seq<Op>, op: Op, who: Address)
    requires !(op.Acquire? && op.who == who)
    ensures CallsOf(init + [op], who) == CallsOf(init, who) && RoomCallsOf(limits, init + [op], who) == RoomCallsOf(limits, init, who)
    ensures LastVerdict(limits, init + [op]) == Step(limits, false, Run(limits, false, EMPTY, init), op).0
    ensures Outstanding(limits, init + [op], who) == Outstanding(limits, init, who) +
      if op.who != who then 0 else if LastVerdict(limits, init + [op]) == Granted then 1 else if LastVerdict(limits, init + [op]) == Released then -1 else 0
  {
    hide Step, Run;
    assert (init + [op])[..|init|] == init;
    assert CallsOf(init, who) + [] == CallsOf(init, who) && RoomCallsOf(limits, init, who) + [] == RoomCallsOf(limits, init, who);
  }

  lemma OneCall(limits: ConnectionLimits, init: seq<Op>, op: Op)
    requires op.Acquire?
    ensures var verdict := Step(limits, false, Run(limits, false, EMPTY, init), op).0;
      && CallsOf(init + [op], op.who) == CallsOf(init, op.who) + [op.at]
      && RoomCallsOf(limits, init + [op], op.who) ==
        (if op.creating && verdict in {Granted, RoomCreationRateLimited} then RoomCallsOf(limits, init, op.who) + [op.at] else RoomCallsOf(limits, init, op.who))
      && Outstanding(limits, init + [op], op.who) == Outstanding(limits, init, op.who) + if verdict == Granted then 1 else if verdict == Released then -1 else 0
  {
    hide Step, Run;
    assert (init + [op])[..|init|] == init;
    assert RoomCallsOf(limits, init, op.who) + [] == RoomCallsOf(limits, init, op.who);
  }

  lemma NothingRemembered(limits: ConnectionLimits, who: Address)
    ensures IsRemembered(limits, [], who)
  {
  }

  lemma AcquireIsRemembered(limits: ConnectionLimits, init: seq<Op>, op: Op)
    requires op.Acquire? && IsRemembered(limits, init, op.who)
    ensures IsRemembered(limits, init + [op], op.who)
  {
    hide Step, After, Run, AfterAll, CallsOf, RoomCallsOf, Outstanding;
    var who := op.who;
    OneCall(limits, init, op);
    OneMoreOp(limits, false, EMPTY, init, op);
    AcquireCalls(limits, Run(limits, false, EMPTY, init), who, op.creating, op.at);
    var calls, rooms := CallsOf(init, who), RoomCallsOf(limits, init, who);
    var first := if calls == [] then op.at else calls[0];
    assert (calls + [op.at])[0] == first;
    OneMoreAfter(NewBucket(limits.connections, first), calls, op.at);
    OneMoreAfter(NewBucket(limits.roomCreates, first), rooms, op.at);
    NoCallsYet(NewBucket(limits.connections, first));
    NoCallsYet(NewBucket(limits.roomCreates, first));
  }

  lemma NoCallsYet(b: Bucket)
    ensures AfterAll(b, []) == b
  {
  }

  // So in such a table an acquire is granted exactly if the buckets, as all the calls of its address so far have
  // left them, allow it, and fewer leases than the limit are granted and not released.
  lemma GrantedByHistory(limits: ConnectionLimits, ops: seq<Op>, who: Address, creating: bool, now: real)
    requires limits.Valid()
    ensures var calls := CallsOf(ops, who);
      var first := if calls == [] then now else calls[0];
      Step(limits, false, Run(limits, false, EMPTY, ops), Acquire(who, creating, now)).0 == Granted <==>
        && Allowed(AfterAll(NewBucket(limits.connections, first), calls), now)
        && Outstanding(limits, ops, who) < limits.maxPerIp
        && (creating ==> Allowed(AfterAll(NewBucket(limits.roomCreates, first), RoomCallsOf(limits, ops, who)), now))
  {
    hide Run, After, Refilled, LeasesCounted, AfterAll;
    NothingCounted(limits);
    CountsAreLeases(limits, false, EMPTY, ops);
    CallsAreRemembered(limits, ops, who);
    NoCallsYet(NewBucket(limits.connections, now));
    NoCallsYet(NewBucket(limits.roomCreates, now));
    FoundCountsLeases(limits, false, Run(limits, false, EMPTY, ops), who, now);
  }

  // ---- A bucket left alone --------------------------------------------------------------------

  // Left alone for the time to live, a bucket of this limit is full whatever it held.
  predicate Recovers(limit: RateLimit) {
    Earned(limit.eventsPerSecond, ENTRY_TTL) >= limit.burst as real
  }

  ghost predicate IsBucketOf(limit: RateLimit, b: Bucket, lastSeen: real) {
    && b.Valid() && b.rate == limit.eventsPerSecond && b.capacity == limit.burst as real
    && b.lastRefill <= lastSeen
  }

  lemma RefillsCompose(b: Bucket, t: real, later: real)
    requires b.Valid() && b.lastRefill <= t <= later
    ensures Refilled(Refilled(b, t), later) == Refilled(b, later)
  {
    EarnedAdds(b.rate, t - b.lastRefill, later - t);
    EarnedGrows(b.rate, 0.0, later - t);
    EarnedAdds(b.rate, 0.0, 0.0);
    EarnedGrows(b.rate, 0.0, t - b.lastRefill);
    hide Earned;
  }

  lemma FullAfterTheTtl(limit: RateLimit, b: Bucket, lastSeen: real, now: real)
    requires limit.Valid() && Recovers(limit) && IsBucketOf(limit, b, lastSeen) && now - lastSeen >= ENTRY_TTL
    ensures Refilled(b, now) == NewBucket(limit, now)
  {
    EarnedGrows(b.rate, ENTRY_TTL, now - b.lastRefill);
    hide Earned;
  }

  lemma FullStaysFull(limit: RateLimit, b: Bucket, t: real, later: real)
    requires limit.Valid() && b.Valid() && b.lastRefill <= t <= later && Refilled(b, t) == NewBucket(limit, t)
    ensures Refilled(b, later) == NewBucket(limit, later)
  {
    RefillsCompose(b, t, later);
    EarnedGrows(limit.eventsPerSecond, 0.0, later - t);
    EarnedAdds(limit.eventsPerSecond, 0.0, 0.0);
    hide Earned;
  }

  // ---- Two tables that cannot be told apart ---------------------------------------------------

  ghost predicate EntryOk(limits: ConnectionLimits, entry: Entry, t: real) {
    && IsBucketOf(limits.connections, entry.connectionBucket, entry.lastSeen)
    && IsBucketOf(limits.roomCreates, entry.roomBucket, entry.lastSeen)
    && entry.lastSeen <= t
  }

  // The two entries will act alike from time t on.
  ghost predicate Alike(limits: ConnectionLimits, e: Entry, n: Entry, t: real) {
    && EntryOk(limits, e, t) && EntryOk(limits, n, t)
    && e.connections == n.connections && e.lastSeen == n.lastSeen
    && Refilled(e.connectionBucket, t) == Refilled(n.connectionBucket, t)
    && Refilled(e.roomBucket, t) == Refilled(n.roomBucket, t)
  }

  // From time t on the entry will act like one just made.
  ghost predicate LikeNew(limits: ConnectionLimits, n: Entry, t: real) {
    && EntryOk(limits, n, t)
    && n.connections == 0
    && Refilled(n.connectionBucket, t) == NewBucket(limits.connections, t)
    && Refilled(n.roomBucket, t) == NewBucket(limits.roomCreates, t)
  }

  // What one table forgot, the other holds as good as new.
  ghost predicate AddressAlike(limits: ConnectionLimits, e: Table, n: Table, a: Address, t: real) {
    && (a in e ==> a in n && Alike(limits, e[a], n[a], t))
    && (a !in e && a in n ==> LikeNew(limits, n[a], t))
  }

  ghost predicate TablesAlike(limits: ConnectionLimits, e: Table, n: Table, t: real) {
    forall a :: AddressAlike(limits, e, n, a, t)
  }

  lemma AlikeLater(limits: ConnectionLimits, e: Entry, n: Entry, t: real, later: real)
    requires Alike(limits, e, n, t) && t <= later
    ensures Alike(limits, e, n, later)
  {
    RefillsCompose(e.connectionBucket, t, later);
    RefillsCompose(n.connectionBucket, t, later);
    RefillsCompose(e.roomBucket, t, later);
    RefillsCompose(n.roomBucket, t, later);
    hide Refilled;
  }

  lemma LikeNewLater(limits: ConnectionLimits, n: Entry, t: real, later: real)
    requires limits.Valid() && LikeNew(limits, n, t) && t <= later
    ensures LikeNew(limits, n, later)
  {
    FullStaysFull(limits.connections, n.connectionBucket, t, later);
    FullStaysFull(limits.roomCreates, n.roomBucket, t, later);
    hide Refilled;
  }

  lemma TablesAlikeLater(limits: ConnectionLimits, e: Table, n: Table, t: real, later: real)
    requires limits.Valid() && TablesAlike(limits, e, n, t) && t <= later
    ensures TablesAlike(limits, e, n, later)
  {
    hide Alike, LikeNew;
    forall a ensures AddressAlike(limits, e, n, a, later) {
      assert AddressAlike(limits, e, n, a, t);
      if a in e {
        AlikeLater(limits, e[a], n[a], t, later);
      } else if a in n {
        LikeNewLater(limits, n[a], t, later);
      }
    }
  }

  lemma ExpiredIsLikeNew(limits: ConnectionLimits, e: Entry, n: Entry, now: real)
    requires limits.Valid() && Recovers(limits.connections) && Recovers(limits.roomCreates)
    requires Alike(limits, e, n, now) && IsExpired(e, now)
    ensures LikeNew(limits, n, now)
  {
    FullAfterTheTtl(limits.connections, n.connectionBucket, n.lastSeen, now);
    FullAfterTheTtl(limits.roomCreates, n.roomBucket, n.lastSeen, now);
    hide Refilled, Recovers;
  }

  lemma EvictionKeepsTablesAlike(limits: ConnectionLimits, e: Table, n: Table, now: real)
    requires limits.Valid() && Recovers(limits.connections) && Recovers(limits.roomCreates)
    requires TablesAlike(limits, e, n, now)
    ensures TablesAlike(limits, Surviving(e, now), n, now)
  {
    hide Alike, LikeNew, IsExpired, Recovers;
    forall a ensures AddressAlike(limits, Surviving(e, now), n, a, now) {
      assert AddressAlike(limits, e, n, a, now);
      if a in e && IsExpired(e[a], now) {
        ExpiredIsLikeNew(limits, e[a], n[a], now);
      }
    }
  }

  lemma NewBucketIsFull(limit: RateLimit, now: real)
    requires limit.Valid()
    ensures IsBucketOf(limit, NewBucket(limit, now), now)
    ensures Refilled(NewBucket(limit, now), now) == NewBucket(limit, now)
  {
    EarnedAdds(limit.eventsPerSecond, 0.0, 0.0);
    hide Earned;
  }

  lemma SeenNow(limits: ConnectionLimits, e: Entry, n: Entry, now: real)
    requires Alike(limits, e, n, now)
    ensures Alike(limits, e.(lastSeen := now), n.(lastSeen := now), now)
  {
    hide Refilled;
  }

  lemma NewIsAlike(limits: ConnectionLimits, n: Entry, now: real)
    requires limits.Valid() && LikeNew(limits, n, now)
    ensures Alike(limits, NewEntry(limits, now), n.(lastSeen := now), now)
  {
    NewBucketIsFull(limits.connections, now);
    NewBucketIsFull(limits.roomCreates, now);
    hide Refilled;
  }

  lemma BothNew(limits: ConnectionLimits, now: real)
    requires limits.Valid()
    ensures Alike(limits, NewEntry(limits, now), NewEntry(limits, now), now)
  {
    NewBucketIsFull(limits.connections, now);
    NewBucketIsFull(limits.roomCreates, now);
    hide Refilled;
  }

  lemma EntriesForAreAlike(limits: ConnectionLimits, e: Table, n: Table, who: Address, now: real)
    requires limits.Valid() && AddressAlike(limits, e, n, who, now)
    ensures Alike(limits, EntryFor(limits, e, who, now), EntryFor(limits, n, who, now), now)
  {
    hide Alike, LikeNew, NewEntry;
    if who in e {
      SeenNow(limits, e[who], n[who], now);
    } else if who in n {
      NewIsAlike(limits, n[who], now);
    } else {
      BothNew(limits, now);
    }
  }

  lemma CalledAlike(limit: RateLimit, b: Bucket, c: Bucket, lastSeen: real, now: real)
    requires IsBucketOf(limit, b, now) && IsBucketOf(limit, c, now) && Refilled(b, now) == Refilled(c, now)
    ensures Allowed(b, now) == Allowed(c, now) && After(b, now) == After(c, now)
    ensures IsBucketOf(limit, After(b, now), now)
  {
    BucketStaysValid(b, now);
    hide Refilled;
  }

  lemma JudgedAlike(limits: ConnectionLimits, e: Entry, n: Entry, creating: bool, now: real)
    requires Alike(limits, e, n, now) && e.lastSeen == now
    ensures Judged(limits, e, creating, now).0 == Judged(limits, n, creating, now).0
    ensures Alike(limits, Judged(limits, e, creating, now).1, Judged(limits, n, creating, now).1, now)
  {
    CalledAlike(limits.connections, e.connectionBucket, n.connectionBucket, now, now);
    CalledAlike(limits.connections, n.connectionBucket, e.connectionBucket, now, now);
    CalledAlike(limits.roomCreates, e.roomBucket, n.roomBucket, now, now);
    CalledAlike(limits.roomCreates, n.roomBucket, e.roomBucket, now, now);
    hide Refilled, After, Allowed, IsBucketOf;
  }

  lemma AcquireAlike(limits: ConnectionLimits, e: System, n: System, op: Op)
    requires limits.Valid() && Recovers(limits.connections) && Recovers(limits.roomCreates)
    requires op.Acquire? && TablesAlike(limits, e.table, n.table, op.at) && e.leases == n.leases
    ensures var (ve, e') := Step(limits, true, e, op);
      var (vn, n') := Step(limits, false, n, op);
      ve == vn && e'.leases == n'.leases && TablesAlike(limits, e'.table, n'.table, op.at)
  {
    var now := op.at;
    hide Recovers, Alike, LikeNew, Judged, EntryFor, Surviving;
    EvictionKeepsTablesAlike(limits, e.table, n.table, now);
    var table := Surviving(e.table, now);
    assert AddressAlike(limits, table, n.table, op.who, now);
    EntriesForAreAlike(limits, table, n.table, op.who, now);
    SeenIsNow(limits, table, op.who, now);
    var a, b := EntryFor(limits, table, op.who, now), EntryFor(limits, n.table, op.who, now);
    JudgedAlike(limits, a, b, op.creating, now);
    OneAddressReplaced(limits, table, n.table, op.who, Judged(limits, a, op.creating, now).1, Judged(limits, b, op.creating, now).1, now);
  }

  lemma SeenIsNow(limits: ConnectionLimits, table: Table, who: Address, now: real)
    ensures EntryFor(limits, table, who, now).lastSeen == now
  {
  }

  lemma OneAddressReplaced(limits: ConnectionLimits, e: Table, n: Table, who: Address, a: Entry, b: Entry, t: real)
    requires TablesAlike(limits, e, n, t) && Alike(limits, a, b, t)
    ensures TablesAlike(limits, e[who := a], n[who := b], t)
  {
    hide Alike, LikeNew;
    var e', n' := e[who := a], n[who := b];
    forall x ensures AddressAlike(limits, e', n', x, t) {
      assert AddressAlike(limits, e, n, x, t);
    }
  }

  function GivenBack(entry: Entry, now: real): Entry {
    entry.(connections := if entry.connections > 0 then entry.connections - 1 else entry.connections, lastSeen := now)
  }

  lemma GivenBackAlike(limits: ConnectionLimits, e: Entry, n: Entry, now: real)
    requires Alike(limits, e, n, now)
    ensures Alike(limits, GivenBack(e, now), GivenBack(n, now), now)
  {
    hide Refilled;
  }

  lemma ReleaseAlike(limits: ConnectionLimits, e: System, n: System, op: Op)
    requires limits.Valid() && LeasesCounted(limits, e)
    requires op.Release? && TablesAlike(limits, e.table, n.table, op.at) && e.leases == n.leases
    ensures var (ve, e') := Step(limits, true, e, op);
      var (vn, n') := Step(limits, false, n, op);
      ve == vn && e'.leases == n'.leases && TablesAlike(limits, e'.table, n'.table, op.at)
  {
    hide Alike, LikeNew;
    if op.who in e.leases {
      assert op.who in e.table;
      assert AddressAlike(limits, e.table, n.table, op.who, op.at);
      var a, b := e.table[op.who], n.table[op.who];
      GivenBackAlike(limits, a, b, op.at);
      hide LeasesCounted;
      OneAddressReplaced(limits, e.table, n.table, op.who, GivenBack(a, op.at), GivenBack(b, op.at), op.at);
    }
  }

  predicate InTimeOrder(ops: seq<Op>, start: real) {
    && (forall i :: 0 <= i < |ops| ==> start <= ops[i].at)
    && (forall i, j :: 0 <= i < j < |ops| ==> ops[i].at <= ops[j].at)
  }

  lemma {:induction false} AlikeTablesAgree(limits: ConnectionLimits, e: System, n: System, ops: seq<Op>, t: real)
    requires limits.Valid() && Recovers(limits.connections) && Recovers(limits.roomCreates)
    requires LeasesCounted(limits, e) && TablesAlike(limits, e.table, n.table, t) && e.leases == n.leases
    requires InTimeOrder(ops, t)
    ensures Verdicts(limits, true, e, ops) == Verdicts(limits, false, n, ops)
    decreases |ops|
  {
    if ops == [] {
    } else {
      var op := ops[0];
      assert InTimeOrder(ops[1..], op.at);
      assert t <= op.at;
      hide Recovers, TablesAlike, LeasesCounted, Step, InTimeOrder;
      TablesAlikeLater(limits, e.table, n.table, t, op.at);
      StepCountsLeases(limits, true, e, op);
      if op.Acquire? {
        AcquireAlike(limits, e, n, op);
      } else {
        ReleaseAlike(limits, e, n, op);
      }
      AlikeTablesAgree(limits, Step(limits, true, e, op).1, Step(limits, false, n, op).1, ops[1..], op.at);
    }
  }

  // If a bucket left alone for the time to live is always full again, forgetting an entry cannot be
  // noticed: every sequence of acquires and releases gets the verdicts of a table that never forgets.
  lemma EvictionIsInvisible(limits: ConnectionLimits, ops: seq<Op>, start: real)
    requires limits.Valid() && Recovers(limits.connections) && Recovers(limits.roomCreates)
    requires InTimeOrder(ops, start)
    ensures Verdicts(limits, true, EMPTY, ops) == Verdicts(limits, false, EMPTY, ops)
  {
    AlikeTablesAgree(limits, EMPTY, EMPTY, ops, start);
  }

  // ---- When rooms are never refused -----------------------------------------------------------

  // The bucket for rooms never runs out before the one for connections.
  predicate RoomsKeepUp(limits: ConnectionLimits) {
    limits.connections.burst <= limits.roomCreates.burst && limits.connections.eventsPerSecond <= limits.roomCreates.eventsPerSecond
  }

  // No call is for a new room.
  function Plain(ops: seq<Op>): (plain: seq<Op>)
    ensures |plain| == |ops|
    ensures forall i :: 0 <= i < |ops| ==> plain[i] == if ops[i].Acquire? then ops[i].(creating := false) else ops[i]
  {
    seq(|ops|, i requires 0 <= i < |ops| => if ops[i].Acquire? then ops[i].(creating := false) else ops[i])
  }

  function RoomsAside(limits: ConnectionLimits): ConnectionLimits {
    limits.(roomCreates := limits.connections)
  }

  // As many more tokens for rooms as the burst is larger.
  ghost predicate IsAhead(limits: ConnectionLimits, entry: Entry, t: real) {
    && IsBucketOf(limits.connections, entry.connectionBucket, t)
    && IsBucketOf(limits.roomCreates, entry.roomBucket, t)
    && Refilled(entry.roomBucket, t).tokens - Refilled(entry.connectionBucket, t).tokens
      >= limits.roomCreates.burst as real - limits.connections.burst as real
  }

  // The same but for what has been spent on rooms, which is never too much.
  ghost predicate EntriesMatch(limits: ConnectionLimits, e: Entry, p: Entry, t: real) {
    p == e.(roomBucket := p.roomBucket) && IsAhead(limits, e, t)
  }

  ghost predicate TablesMatch(limits: ConnectionLimits, e: Table, p: Table, t: real) {
    e.Keys == p.Keys && forall a :: a in e ==> EntriesMatch(limits, e[a], p[a], t)
  }

  lemma AheadLater(limits: ConnectionLimits, entry: Entry, t: real, later: real)
    requires limits.Valid() && RoomsKeepUp(limits) && IsAhead(limits, entry, t) && t <= later
    ensures IsAhead(limits, entry, later)
  {
    RefillsCompose(entry.connectionBucket, t, later);
    RefillsCompose(entry.roomBucket, t, later);
    FasterEarnsMore(limits.connections.eventsPerSecond, limits.roomCreates.eventsPerSecond, later - t);
    hide Earned;
  }

  lemma FasterEarnsMore(slow: real, fast: real, elapsed: real)
    requires slow <= fast && elapsed >= 0.0
    ensures Earned(slow, elapsed) <= Earned(fast, elapsed)
  {
    assert Earned(fast, elapsed) - Earned(slow, elapsed) == (fast - slow) * elapsed;
  }

  lemma NewIsAhead(limits: ConnectionLimits, now: real)
    requires limits.Valid()
    ensures IsAhead(limits, NewEntry(limits, now), now)
  {
    NewBucketIsFull(limits.connections, now);
    NewBucketIsFull(limits.roomCreates, now);
    hide Refilled;
  }

  // A call takes a token if it is allowed, and nothing if not.
  lemma CalledNow(limit: RateLimit, b: Bucket, now: real)
    requires IsBucketOf(limit, b, now)
    ensures IsBucketOf(limit, After(b, now), now)
    ensures Refilled(After(b, now), now).tokens == Refilled(b, now).tokens - if Allowed(b, now) then 1.0 else 0.0
  {
    BucketStaysValid(b, now);
    EarnedAdds(b.rate, 0.0, 0.0);
    hide Earned;
  }

  lemma JudgedMatch(limits: ConnectionLimits, e: Entry, p: Entry, creating: bool, now: real)
    requires RoomsKeepUp(limits) && EntriesMatch(limits, e, p, now)
    ensures Judged(limits, e, creating, now).0 == Judged(RoomsAside(limits), p, false, now).0
    ensures EntriesMatch(limits, Judged(limits, e, creating, now).1, Judged(RoomsAside(limits), p, false, now).1, now)
  {
    CalledNow(limits.connections, e.connectionBucket, now);
    CalledNow(limits.roomCreates, e.roomBucket, now);
    hide Refilled, After, IsBucketOf;
  }

  lemma TablesMatchLater(limits: ConnectionLimits, e: Table, p: Table, t: real, later: real)
    requires limits.Valid() && RoomsKeepUp(limits) && TablesMatch(limits, e, p, t) && t <= later
    ensures TablesMatch(limits, e, p, later)
  {
    hide IsAhead;
    forall a | a in e ensures EntriesMatch(limits, e[a], p[a], later) {
      AheadLater(limits, e[a], t, later);
    }
  }

  lemma SurvivorsMatch(limits: ConnectionLimits, e: Table, p: Table, now: real)
    requires TablesMatch(limits, e, p, now)
    ensures TablesMatch(limits, Surviving(e, now), Surviving(p, now), now)
  {
    hide IsAhead;
  }

  lemma FoundMatch(limits: ConnectionLimits, e: Table, p: Table, who: Address, now: real)
    requires limits.Valid() && TablesMatch(limits, e, p, now)
    ensures EntriesMatch(limits, EntryFor(limits, e, who, now), EntryFor(RoomsAside(limits), p, who, now), now)
  {
    hide IsAhead;
    if who !in e {
      NewIsAhead(limits, now);
    } else {
      SeenIsAhead(limits, e[who], now);
    }
  }

  lemma SeenIsAhead(limits: ConnectionLimits, entry: Entry, now: real)
    requires IsAhead(limits, entry, now)
    ensures forall seen: real, n: int :: IsAhead(limits, entry.(connections := n, lastSeen := seen), now)
  {
    hide Refilled, IsBucketOf;
  }

  lemma StepsMatch(limits: ConnectionLimits, evicting: bool, e: System, p: System, op: Op)
    requires limits.Valid() && RoomsKeepUp(limits) && TablesMatch(limits, e.table, p.table, op.at) && e.leases == p.leases
    ensures var (ve, e') := Step(limits, evicting, e, op);
      var (vp, p') := Step(RoomsAside(limits), evicting, p, if op.Acquire? then op.(creating := false) else op);
      ve == vp && e'.leases == p'.leases && TablesMatch(limits, e'.table, p'.table, op.at)
  {
    hide IsAhead, EntriesMatch, TablesMatch, Judged, EntryFor, Surviving;
    match op
    case Acquire(who, creating, now) =>
      SurvivorsMatch(limits, e.table, p.table, now);
      var a, b := if evicting then Surviving(e.table, now) else e.table, if evicting then Surviving(p.table, now) else p.table;
      FoundMatch(limits, a, b, who, now);
      var x, y := EntryFor(limits, a, who, now), EntryFor(RoomsAside(limits), b, who, now);
      JudgedMatch(limits, x, y, creating, now);
      OneMoreMatches(limits, a, b, who, Judged(limits, x, creating, now).1, Judged(RoomsAside(limits), y, false, now).1, now);
    case Release(who, now) =>
      ReleasedMatch(limits, e, p, who, now);
  }

  lemma OneMoreMatches(limits: ConnectionLimits, e: Table, p: Table, who: Address, a: Entry, b: Entry, t: real)
    requires TablesMatch(limits, e, p, t) && EntriesMatch(limits, a, b, t)
    ensures TablesMatch(limits, e[who := a], p[who := b], t)
  {
    hide EntriesMatch;
  }

  lemma ReleasedMatch(limits: ConnectionLimits, e: System, p: System, who: Address, now: real)
    requires TablesMatch(limits, e.table, p.table, now) && e.leases == p.leases
    ensures var (ve, e') := Step(limits, true, e, Release(who, now));
      var (vp, p') := Step(RoomsAside(limits), true, p, Release(who, now));
      ve == vp && e'.leases == p'.leases && TablesMatch(limits, e'.table, p'.table, now)
  {
    hide IsAhead;
    if who in e.table {
      SeenIsAhead(limits, e.table[who], now);
      OneMoreMatches(limits, e.table, p.table, who, GivenBack(e.table[who], now), GivenBack(p.table[who], now), now);
      hide TablesMatch;
    }
  }

  // So every call gets the verdict it would get if nobody ever asked for a room.
  lemma {:induction false} RoomsAreNeverRefused(limits: ConnectionLimits, evicting: bool, e: System, p: System, ops: seq<Op>, t: real)
    requires limits.Valid() && RoomsKeepUp(limits) && TablesMatch(limits, e.table, p.table, t) && e.leases == p.leases
    requires InTimeOrder(ops, t)
    ensures Verdicts(limits, evicting, e, ops) == Verdicts(RoomsAside(limits), evicting, p, Plain(ops))
    decreases |ops|
  {
    if ops == [] {
    } else {
      var op := ops[0];
      assert InTimeOrder(ops[1..], op.at);
      assert t <= op.at;
      assert Plain(ops)[1..] == Plain(ops[1..]);
      hide TablesMatch, Step, InTimeOrder, RoomsKeepUp;
      TablesMatchLater(limits, e.table, p.table, t, op.at);
      StepsMatch(limits, evicting, e, p, op);
      RoomsAreNeverRefused(limits, evicting, Step(limits, evicting, e, op).1, Step(RoomsAside(limits), evicting, p, Plain(ops)[0]).1, ops[1..], op.at);
    }
  }

  lemma RoomsDoNotMatter(limits: ConnectionLimits, ops: seq<Op>, start: real)
    requires limits.Valid() && Recovers(limits.connections) && RoomsKeepUp(limits) && InTimeOrder(ops, start)
    ensures Verdicts(limits, true, EMPTY, ops) == Verdicts(limits, false, EMPTY, ops)
  {
    hide Verdicts, Recovers;
    RoomsAreNeverRefused(limits, true, EMPTY, EMPTY, ops, start);
    RoomsAreNeverRefused(limits, false, EMPTY, EMPTY, ops, start);
    EvictionIsInvisible(RoomsAside(limits), Plain(ops), start);
  }

  // ---- When it can be noticed -----------------------------------------------------------------

  // So many leases from one address in a row, each held for so long and the last one given back at once.
  function Visits(who: Address, creating: bool, now: real, stay: real, count: nat): seq<Op>
    decreases count
  {
    if count == 0 then []
    else if count == 1 then [Acquire(who, creating, now), Release(who, now)]
    else [Acquire(who, creating, now), Release(who, now + stay)] + Visits(who, creating, now + stay, stay, count - 1)
  }

  function EndOf(now: real, stay: real, count: nat): real
    decreases count
  {
    if count <= 1 then now else EndOf(now + stay, stay, count - 1)
  }

  function AllWelcome(count: nat): seq<Verdict> {
    if count == 0 then [] else [Granted, Released] + AllWelcome(count - 1)
  }

  function Times(n: nat, x: real): real {
    if n == 0 then 0.0 else x + Times(n - 1, x)
  }

  lemma {:induction false} TimesIs(n: nat, x: real)
    ensures Times(n, x) == n as real * x
  {
    if n > 0 {
      TimesIs(n - 1, x);
      assert n as real * x == (n - 1) as real * x + x;
    }
  }

  lemma {:induction false} VisitsInOrder(who: Address, creating: bool, now: real, stay: real, count: nat)
    requires stay >= 0.0
    ensures now <= EndOf(now, stay, count)
    ensures InTimeOrder(Visits(who, creating, now, stay, count), now)
    ensures forall i :: 0 <= i < |Visits(who, creating, now, stay, count)| ==> Visits(who, creating, now, stay, count)[i].at <= EndOf(now, stay, count)
    decreases count
  {
    if count > 1 {
      VisitsInOrder(who, creating, now + stay, stay, count - 1);
    }
  }

  lemma {:induction false} RunsJoin(limits: ConnectionLimits, evicting: bool, s: System, a: seq<Op>, b: seq<Op>)
    ensures Verdicts(limits, evicting, s, a + b) == Verdicts(limits, evicting, s, a) + Verdicts(limits, evicting, Run(limits, evicting, s, a), b)
    ensures |Verdicts(limits, evicting, s, a)| == |a|
    decreases |a|
  {
    hide Step;
    if a == [] {
      assert a + b == b;
    } else {
      assert (a + b)[1..] == a[1..] + b;
      RunsJoin(limits, evicting, Step(limits, evicting, s, a[0]).1, a[1..], b);
    }
  }

  // Nobody from this address is connected.
  ghost predicate IsQuiet(limits: ConnectionLimits, evicting: bool, s: System, who: Address, now: real) {
    var entry := Found(limits, evicting, s, who, now);
    && entry.connections == 0 && s.leases[who] == 0
    && IsBucketOf(limits.connections, entry.connectionBucket, now) && IsBucketOf(limits.roomCreates, entry.roomBucket, now)
  }

  // With so many tokens, and what each stay earns up to one, so many calls are allowed.
  ghost predicate Lasts(b: Bucket, now: real, stay: real, count: nat) {
    count > 0 ==> Refilled(b, now).tokens + Times(count - 1, Min(1.0, Earned(b.rate, stay))) >= count as real
  }

  ghost predicate EntryLasts(entry: Entry, creating: bool, now: real, stay: real, count: nat) {
    Lasts(entry.connectionBucket, now, stay, count) && (creating ==> Lasts(entry.roomBucket, now, stay, count))
  }

  lemma {:induction false} TimesAtMost(n: nat, x: real)
    requires x <= 1.0
    ensures Times(n, x) <= n as real
  {
    if n > 0 {
      TimesAtMost(n - 1, x);
    }
  }

  lemma LastsOn(limit: RateLimit, b: Bucket, now: real, stay: real, count: nat)
    requires IsBucketOf(limit, b, now) && stay >= 0.0 && count > 0 && Lasts(b, now, stay, count)
    ensures Allowed(b, now) && IsBucketOf(limit, After(b, now), now)
    ensures Lasts(After(b, now), now + stay, stay, count - 1)
  {
    BucketStaysValid(b, now);
    TimesAtMost(count - 1, Min(1.0, Earned(b.rate, stay)));
    hide Earned;
  }

  // What one visit leaves behind.
  function Visited(entry: Entry, creating: bool, now: real, until: real): Entry {
    entry.(connectionBucket := After(entry.connectionBucket, now),
           roomBucket := if creating then After(entry.roomBucket, now) else entry.roomBucket, lastSeen := until)
  }

  lemma OneVisit(limits: ConnectionLimits, evicting: bool, s: System, who: Address, creating: bool, now: real, until: real)
    requires limits.Valid() && now <= until && IsQuiet(limits, evicting, s, who, now)
    requires var entry := Found(limits, evicting, s, who, now);
      Allowed(entry.connectionBucket, now) && (creating ==> Allowed(entry.roomBucket, now))
    ensures var (v, t) := Step(limits, evicting, s, Acquire(who, creating, now));
      var (w, u) := Step(limits, evicting, t, Release(who, until));
      && v == Granted && w == Released && u.leases == s.leases && IsQuiet(limits, evicting, u, who, until)
      && who in u.table && u.table[who] == Visited(Found(limits, evicting, s, who, now), creating, now, until)
      && Found(limits, evicting, u, who, until) == u.table[who]
  {
    var entry := Found(limits, evicting, s, who, now);
    BucketStaysValid(entry.connectionBucket, now);
    BucketStaysValid(entry.roomBucket, now);
    assert s.leases + multiset{who} - multiset{who} == s.leases;
    hide After, Allowed, Refilled;
  }

  lemma OneVisitIsWelcome(limits: ConnectionLimits, evicting: bool, s: System, who: Address, creating: bool, now: real, stay: real, until: real, count: nat)
    requires limits.Valid() && stay >= 0.0 && now <= until && (until == now + stay || count == 1) && count > 0
    requires IsQuiet(limits, evicting, s, who, now) && EntryLasts(Found(limits, evicting, s, who, now), creating, now, stay, count)
    ensures var entry := Found(limits, evicting, s, who, now);
      Allowed(entry.connectionBucket, now) && (creating ==> Allowed(entry.roomBucket, now))
    ensures EntryLasts(Visited(Found(limits, evicting, s, who, now), creating, now, until), creating, until, stay, count - 1)
  {
    var entry := Found(limits, evicting, s, who, now);
    hide Found, After, Refilled;
    LastsOn(limits.connections, entry.connectionBucket, now, stay, count);
    if creating {
      LastsOn(limits.roomCreates, entry.roomBucket, now, stay, count);
    }
  }

  lemma TwoSteps(limits: ConnectionLimits, evicting: bool, s: System, ops: seq<Op>)
    requires |ops| >= 2
    ensures var (v, t) := Step(limits, evicting, s, ops[0]);
      var (w, u) := Step(limits, evicting, t, ops[1]);
      && Run(limits, evicting, s, ops) == Run(limits, evicting, u, ops[2..])
      && Verdicts(limits, evicting, s, ops) == [v, w] + Verdicts(limits, evicting, u, ops[2..])
  {
    assert ops[1..][1..] == ops[2..];
    hide Step;
  }

  // The visits start like this and go on like that.
  lemma FirstVisit(who: Address, creating: bool, now: real, stay: real, count: nat)
    requires stay >= 0.0 && count > 0
    ensures var ops, until := Visits(who, creating, now, stay, count), if count == 1 then now else now + stay;
      && |ops| >= 2 && ops[0] == Acquire(who, creating, now) && ops[1] == Release(who, until) && now <= until
      && ops[2..] == Visits(who, creating, until, stay, count - 1)
      && EndOf(now, stay, count) == EndOf(until, stay, count - 1)
  {
  }

  lemma NothingMore(limits: ConnectionLimits, evicting: bool, s: System)
    ensures Run(limits, evicting, s, []) == s && Verdicts(limits, evicting, s, []) == []
  {
  }

  // With tokens enough, every visit is welcome.
  lemma {:induction false} VisitsAreWelcome(limits: ConnectionLimits, evicting: bool, s: System, who: Address, creating: bool, now: real, stay: real, count: nat)
    requires limits.Valid() && stay >= 0.0
    requires IsQuiet(limits, evicting, s, who, now) && EntryLasts(Found(limits, evicting, s, who, now), creating, now, stay, count)
    ensures Verdicts(limits, evicting, s, Visits(who, creating, now, stay, count)) == AllWelcome(count)
    ensures var t, end := Run(limits, evicting, s, Visits(who, creating, now, stay, count)), EndOf(now, stay, count);
      IsQuiet(limits, evicting, t, who, end) && (count > 0 ==> who in t.table && t.table[who] == Found(limits, evicting, t, who, end))
    decreases count
  {
    hide Step, Found, Run, Verdicts, IsQuiet, EntryLasts, Visited, Allowed;
    if count == 0 {
      NothingMore(limits, evicting, s);
    } else {
      var ops, until := Visits(who, creating, now, stay, count), if count == 1 then now else now + stay;
      FirstVisit(who, creating, now, stay, count);
      OneVisitIsWelcome(limits, evicting, s, who, creating, now, stay, until, count);
      OneVisit(limits, evicting, s, who, creating, now, until);
      TwoSteps(limits, evicting, s, ops);
      hide Visits;
      var t := Step(limits, evicting, s, ops[0]).1;
      var u := Step(limits, evicting, t, ops[1]).1;
      VisitsAreWelcome(limits, evicting, u, who, creating, until, stay, count - 1);
      if count == 1 {
        NothingMore(limits, evicting, u);
      }
    }
  }

  // The bucket the visits run down.
  function Spent(entry: Entry, creating: bool): Bucket {
    if creating then entry.roomBucket else entry.connectionBucket
  }

  function SpentLimit(limits: ConnectionLimits, creating: bool): RateLimit {
    if creating then limits.roomCreates else limits.connections
  }

  lemma FirstIsWelcome(limits: ConnectionLimits, s: System, who: Address, creating: bool, now: real)
    requires Step(limits, false, s, Acquire(who, creating, now)).0 == Granted
    ensures var entry := Found(limits, false, s, who, now);
      Allowed(entry.connectionBucket, now) && (creating ==> Allowed(entry.roomBucket, now))
  {
    hide Refilled, After;
  }

  lemma OneIsPaidFor(limit: RateLimit, b: Bucket, now: real, until: real)
    requires IsBucketOf(limit, b, now) && Allowed(b, now) && now <= until
    ensures After(b, now).tokens == Refilled(b, now).tokens - 1.0 && After(b, now).tokens >= 0.0 && After(b, now).lastRefill == now
    ensures Refilled(After(b, now), until).tokens <= Refilled(b, now).tokens - 1.0 + Earned(limit.eventsPerSecond, until - now)
  {
    hide Earned;
  }

  // Without eviction, where every visit is welcome it has been paid for.
  lemma {:induction false} WelcomeIsPaidFor(limits: ConnectionLimits, s: System, who: Address, creating: bool, now: real, stay: real, count: nat)
    requires limits.Valid() && stay >= 0.0 && count > 0 && IsQuiet(limits, false, s, who, now)
    requires Verdicts(limits, false, s, Visits(who, creating, now, stay, count)) == AllWelcome(count)
    ensures var t, end := Run(limits, false, s, Visits(who, creating, now, stay, count)), EndOf(now, stay, count);
      var left, rate := Spent(Found(limits, false, t, who, end), creating), SpentLimit(limits, creating).eventsPerSecond;
      && 0.0 <= left.tokens && left.lastRefill == end
      && left.tokens <= Refilled(Spent(Found(limits, false, s, who, now), creating), now).tokens + Times(count - 1, Earned(rate, stay)) - count as real
    decreases count
  {
    hide Step, Found, Run, Verdicts, IsQuiet, Allowed, Refilled, After, Earned;
    var ops, until := Visits(who, creating, now, stay, count), if count == 1 then now else now + stay;
    var entry := Found(limits, false, s, who, now);
    FirstVisit(who, creating, now, stay, count);
    TwoSteps(limits, false, s, ops);
    assert AllWelcome(count)[0] == Granted && AllWelcome(count)[2..] == AllWelcome(count - 1);
    FirstIsWelcome(limits, s, who, creating, now);
    OneVisit(limits, false, s, who, creating, now, until);
    QuietBuckets(limits, false, s, who, now);
    OneIsPaidFor(SpentLimit(limits, creating), Spent(entry, creating), now, until);
    hide Visits, AllWelcome;
    var t := Step(limits, false, s, ops[0]).1;
    var u := Step(limits, false, t, ops[1]).1;
    if count > 1 {
      WelcomeIsPaidFor(limits, u, who, creating, until, stay, count - 1);
    } else {
      assert ops[2..] == Visits(who, creating, until, stay, 0);
      NothingMore(limits, false, u);
    }
  }

  lemma QuietBuckets(limits: ConnectionLimits, evicting: bool, s: System, who: Address, now: real)
    requires IsQuiet(limits, evicting, s, who, now)
    ensures forall creating :: IsBucketOf(SpentLimit(limits, creating), Spent(Found(limits, evicting, s, who, now), creating), now)
  {
    hide IsBucketOf;
  }

  // ---- Two rounds of visits -------------------------------------------------------------------

  // Run a bucket down, stay away for exactly the time to live, and do it again.
  function TwoRounds(who: Address, creating: bool, stay: real, count: nat): seq<Op> {
    Visits(who, creating, 0.0, stay, count) + Visits(who, creating, EndOf(0.0, stay, count) + ENTRY_TTL, stay, count)
  }

  // A newcomer's tokens are enough for the visits, and for not one more.
  ghost predicate RunsDown(limits: ConnectionLimits, creating: bool, stay: real, count: nat) {
    && stay >= 0.0 && count > 0
    && EntryLasts(NewEntry(limits, 0.0), creating, 0.0, stay, count)
    && SpentLimit(limits, creating).burst as real + Times(count - 1, Earned(SpentLimit(limits, creating).eventsPerSecond, stay)) == count as real
    && !Recovers(SpentLimit(limits, creating))
  }

  lemma TwoRoundsInOrder(who: Address, creating: bool, stay: real, count: nat)
    requires stay >= 0.0
    ensures InTimeOrder(TwoRounds(who, creating, stay, count), 0.0)
  {
    VisitsInOrder(who, creating, 0.0, stay, count);
    VisitsInOrder(who, creating, EndOf(0.0, stay, count) + ENTRY_TTL, stay, count);
    hide Visits, EndOf;
  }

  lemma NewIsQuiet(limits: ConnectionLimits, evicting: bool, s: System, who: Address, creating: bool, now: real, stay: real, count: nat)
    requires limits.Valid() && Found(limits, evicting, s, who, now) == NewEntry(limits, now) && s.leases[who] == 0
    requires EntryLasts(NewEntry(limits, 0.0), creating, 0.0, stay, count)
    ensures IsQuiet(limits, evicting, s, who, now) && EntryLasts(NewEntry(limits, now), creating, now, stay, count)
  {
    NewBucketIsFull(limits.connections, now);
    NewBucketIsFull(limits.roomCreates, now);
    NewBucketIsFull(limits.connections, 0.0);
    NewBucketIsFull(limits.roomCreates, 0.0);
    hide Refilled, Found;
  }

  lemma FirstIsNew(limits: ConnectionLimits, evicting: bool, who: Address, now: real)
    ensures Found(limits, evicting, EMPTY, who, now) == NewEntry(limits, now)
  {
  }

  lemma ExpiredIsNew(limits: ConnectionLimits, s: System, who: Address, end: real)
    requires IsQuiet(limits, true, s, who, end) && who in s.table && s.table[who] == Found(limits, true, s, who, end)
    ensures Found(limits, true, s, who, end + ENTRY_TTL) == NewEntry(limits, end + ENTRY_TTL) && s.leases[who] == 0
  {
    SeenWhenFound(limits, true, s, who, end);
  }

  lemma SeenWhenFound(limits: ConnectionLimits, evicting: bool, s: System, who: Address, now: real)
    ensures Found(limits, evicting, s, who, now).lastSeen == now
  {
  }

  // The forgetful table welcomes both rounds.
  lemma ForgetfulTableWelcomesBoth(limits: ConnectionLimits, who: Address, creating: bool, stay: real, count: nat)
    requires limits.Valid() && RunsDown(limits, creating, stay, count)
    ensures Verdicts(limits, true, EMPTY, TwoRounds(who, creating, stay, count)) == AllWelcome(count) + AllWelcome(count)
  {
    hide Found, Visits, Verdicts, Run, Step, AllWelcome, IsQuiet, EntryLasts, NewEntry, EndOf;
    var end := EndOf(0.0, stay, count);
    var first, second := Visits(who, creating, 0.0, stay, count), Visits(who, creating, end + ENTRY_TTL, stay, count);
    FirstIsNew(limits, true, who, 0.0);
    NewIsQuiet(limits, true, EMPTY, who, creating, 0.0, stay, count);
    VisitsAreWelcome(limits, true, EMPTY, who, creating, 0.0, stay, count);
    var later := Run(limits, true, EMPTY, first);
    ExpiredIsNew(limits, later, who, end);
    NewIsQuiet(limits, true, later, who, creating, end + ENTRY_TTL, stay, count);
    VisitsAreWelcome(limits, true, later, who, creating, end + ENTRY_TTL, stay, count);
    RunsJoin(limits, true, EMPTY, first, second);
  }

  // Left alone for the time to live, what the first round left is less than a full bucket.
  lemma StillShort(limits: ConnectionLimits, s: System, who: Address, creating: bool, end: real)
    requires limits.Valid() && IsQuiet(limits, false, s, who, end) && !Recovers(SpentLimit(limits, creating))
    requires who in s.table && s.table[who] == Found(limits, false, s, who, end)
    requires Spent(Found(limits, false, s, who, end), creating).tokens <= 0.0 && Spent(Found(limits, false, s, who, end), creating).lastRefill == end
    ensures IsQuiet(limits, false, s, who, end + ENTRY_TTL)
    ensures Refilled(Spent(Found(limits, false, s, who, end + ENTRY_TTL), creating), end + ENTRY_TTL).tokens < SpentLimit(limits, creating).burst as real
  {
    hide Earned;
  }

  // The table that remembers does not.
  lemma MindfulTableDoesNot(limits: ConnectionLimits, who: Address, creating: bool, stay: real, count: nat)
    requires limits.Valid() && RunsDown(limits, creating, stay, count)
    ensures Verdicts(limits, false, EMPTY, TwoRounds(who, creating, stay, count)) != AllWelcome(count) + AllWelcome(count)
  {
    hide Found, Visits, Verdicts, Run, Step, AllWelcome, IsQuiet, EntryLasts, EndOf, Refilled, Recovers, Earned;
    var end := EndOf(0.0, stay, count);
    var first, second := Visits(who, creating, 0.0, stay, count), Visits(who, creating, end + ENTRY_TTL, stay, count);
    FirstIsNew(limits, false, who, 0.0);
    NewIsQuiet(limits, false, EMPTY, who, creating, 0.0, stay, count);
    VisitsAreWelcome(limits, false, EMPTY, who, creating, 0.0, stay, count);
    WelcomeIsPaidFor(limits, EMPTY, who, creating, 0.0, stay, count);
    NewBucketIsFull(SpentLimit(limits, creating), 0.0);
    var later := Run(limits, false, EMPTY, first);
    StillShort(limits, later, who, creating, end);
    RunsJoin(limits, false, EMPTY, first, second);
    if Verdicts(limits, false, EMPTY, first + second) == AllWelcome(count) + AllWelcome(count) {
      var v, w := Verdicts(limits, false, EMPTY, first), Verdicts(limits, false, later, second);
      assert (v + w)[|v|..] == w && (AllWelcome(count) + AllWelcome(count))[|v|..] == AllWelcome(count);
      WelcomeIsPaidFor(limits, later, who, creating, end + ENTRY_TTL, stay, count);
      assert false;
    }
  }

  ghost predicate NeverNoticed(limits: ConnectionLimits) {
    forall ops, start :: InTimeOrder(ops, start) ==> Verdicts(limits, true, EMPTY, ops) == Verdicts(limits, false, EMPTY, ops)
  }

  lemma NoticedOnce(limits: ConnectionLimits, creating: bool, stay: real, count: nat)
    requires limits.Valid() && RunsDown(limits, creating, stay, count)
    ensures !NeverNoticed(limits)
  {
    var who := Address("");
    hide Verdicts, AllWelcome, InTimeOrder, TwoRounds, Recovers, RunsDown;
    StayIsNotNegative(limits, creating, stay, count);
    TwoRoundsInOrder(who, creating, stay, count);
    ForgetfulTableWelcomesBoth(limits, who, creating, stay, count);
    MindfulTableDoesNot(limits, who, creating, stay, count);
  }

  lemma StayIsNotNegative(limits: ConnectionLimits, creating: bool, stay: real, count: nat)
    requires RunsDown(limits, creating, stay, count)
    ensures stay >= 0.0
  {
  }

  // A burst at once, where the bucket is the smaller one.
  lemma BurstRunsDown(limits: ConnectionLimits, creating: bool)
    requires limits.Valid() && !Recovers(SpentLimit(limits, creating)) && SpentLimit(limits, creating).burst <= limits.connections.burst
    ensures RunsDown(limits, creating, 0.0, SpentLimit(limits, creating).burst)
  {
    var count := SpentLimit(limits, creating).burst;
    NewBucketIsFull(limits.connections, 0.0);
    NewBucketIsFull(limits.roomCreates, 0.0);
    TimesIs(count - 1, 0.0);
    EarnedAdds(limits.connections.eventsPerSecond, 0.0, 0.0);
    EarnedAdds(limits.roomCreates.eventsPerSecond, 0.0, 0.0);
    hide Recovers, Earned, Refilled, Times;
  }

  lemma EnoughStays(slow: real, fast: real, burst: int) returns (count: nat)
    requires 0.0 < slow < fast && burst > 0
    ensures count > burst && (count as real - burst as real) * fast >= (count as real - 1.0) * slow
  {
    var gap, target := fast - slow, burst as real * fast;
    var needed := target / gap;
    Quotient(target, gap);
    count := burst + 1 + needed.Floor;
    MulGrows(needed, count as real, gap);
    assert count as real * gap == count as real * fast - count as real * slow;
  }

  // Stays long enough for the faster bucket to earn a whole token each, and short enough for the slower
  // one to run down to nothing in so many of them.
  lemma StaysInBetween(slow: real, fast: real, burst: int) returns (stay: real, count: nat)
    requires 0.0 < slow < fast && burst > 0
    ensures stay >= 0.0 && count > burst
    ensures (count - 1) as real * Earned(slow, stay) == count as real - burst as real
    ensures Earned(slow, stay) <= 1.0 <= Earned(fast, stay)
  {
    count := EnoughStays(slow, fast, burst);
    var n, over := count as real - 1.0, count as real - burst as real;
    stay := over / n / slow;
    Quotient(over, n);
    Quotient(over / n, slow);
    FastEarnsOne(slow, fast, over, n, stay);
  }

  lemma Quotient(a: real, b: real)
    requires b > 0.0
    ensures b * (a / b) == a && (a / b) * b == a && (a >= 0.0 ==> a / b >= 0.0) && (a <= b ==> a / b <= 1.0)
  {
  }

  lemma FastEarnsOne(slow: real, fast: real, over: real, n: real, stay: real)
    requires 0.0 < slow < fast && over > 0.0 && n > 0.0 && stay >= 0.0
    requires over * fast >= n * slow && slow * stay == over / n
    ensures fast * stay >= 1.0
  {
    assert n * (slow * stay) == over;
    assert (n * slow) * stay == over;
    assert over * (fast * stay) == (over * fast) * stay;
    MulGrows(n * slow, over * fast, stay);
    if fast * stay < 1.0 {
      assert over * (1.0 - fast * stay) > 0.0;
    }
  }

  lemma MulGrows(a: real, b: real, x: real)
    requires a <= b && x >= 0.0
    ensures a * x <= b * x
  {
    assert (b - a) * x >= 0.0;
  }

  // Room after room, where the bucket for rooms is larger but fills more slowly.
  lemma SlowBucketRunsDown(limits: ConnectionLimits) returns (stay: real, count: nat)
    requires limits.Valid() && !Recovers(limits.roomCreates)
    requires limits.roomCreates.eventsPerSecond < limits.connections.eventsPerSecond
    ensures RunsDown(limits, true, stay, count)
  {
    hide Recovers, Earned, Refilled, Times;
    stay, count := StaysInBetween(limits.roomCreates.eventsPerSecond, limits.connections.eventsPerSecond, limits.roomCreates.burst);
    NewBucketIsFull(limits.connections, 0.0);
    NewBucketIsFull(limits.roomCreates, 0.0);
    TimesIs(count - 1, Earned(limits.roomCreates.eventsPerSecond, stay));
    TimesIs(count - 1, 1.0);
  }

  // ---- Exactly when ---------------------------------------------------------------------------

  // Eviction goes unnoticed exactly when, left alone for the time to live, the bucket for connections is
  // full again, and so is the one for rooms unless it never runs out before the other.
  lemma EvictionIsInvisibleExactly(limits: ConnectionLimits)
    requires limits.Valid()
    ensures NeverNoticed(limits) <==> Recovers(limits.connections) && (Recovers(limits.roomCreates) || RoomsKeepUp(limits))
  {
    hide Verdicts, InTimeOrder, Recovers, RunsDown;
    if !Recovers(limits.connections) {
      BurstRunsDown(limits, false);
      NoticedOnce(limits, false, 0.0, limits.connections.burst);
    } else if Recovers(limits.roomCreates) {
      forall ops, start | InTimeOrder(ops, start) ensures Verdicts(limits, true, EMPTY, ops) == Verdicts(limits, false, EMPTY, ops) {
        EvictionIsInvisible(limits, ops, start);
      }
    } else if RoomsKeepUp(limits) {
      forall ops, start | InTimeOrder(ops, start) ensures Verdicts(limits, true, EMPTY, ops) == Verdicts(limits, false, EMPTY, ops) {
        RoomsDoNotMatter(limits, ops, start);
      }
    } else if limits.roomCreates.burst <= limits.connections.burst {
      BurstRunsDown(limits, true);
      NoticedOnce(limits, true, 0.0, limits.roomCreates.burst);
    } else {
      var stay, count := SlowBucketRunsDown(limits);
      NoticedOnce(limits, true, stay, count);
    }
  }

  lemma DefaultLimitsRecover()
    ensures DEFAULT_LIMITS.Valid() && NeverNoticed(DEFAULT_LIMITS)
  {
    assert Recovers(DEFAULT_LIMITS.connections) && Recovers(DEFAULT_LIMITS.roomCreates);
    EvictionIsInvisibleExactly(DEFAULT_LIMITS);
    hide NeverNoticed, Recovers;
  }
}
