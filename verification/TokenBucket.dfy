// The token bucket behind every rate limit (internal/ws/rate_limit.go), over exact numbers. Times are
// clock readings in seconds; nothing is assumed of their order.

module TokenBucket {
  datatype RateLimit = RateLimit(eventsPerSecond: real, burst: int) {
    predicate Valid() {
      eventsPerSecond > 0.0 && burst > 0
    }
  }

  datatype Bucket = Bucket(rate: real, capacity: real, tokens: real, lastRefill: real) {
    ghost predicate Valid() {
      rate > 0.0 && capacity >= 1.0 && 0.0 <= tokens <= capacity
    }
  }

  function Max(a: real, b: real): real {
    if a < b then b else a
  }

  function Min(a: real, b: real): real {
    if a < b then a else b
  }

  function NewBucket(limit: RateLimit, now: real): Bucket {
    Bucket(limit.eventsPerSecond, limit.burst as real, limit.burst as real, now)
  }

  // What the time passed earns.
  function Earned(rate: real, elapsed: real): real {
    rate * elapsed
  }

  function Refilled(b: Bucket, now: real): Bucket {
    var clock := Max(now, b.lastRefill);
    b.(tokens := Min(b.capacity, b.tokens + Earned(b.rate, clock - b.lastRefill)), lastRefill := clock)
  }

  predicate Allowed(b: Bucket, now: real) {
    Refilled(b, now).tokens >= 1.0
  }

  function After(b: Bucket, now: real): Bucket {
    var refilled := Refilled(b, now);
    if refilled.tokens >= 1.0 then refilled.(tokens := refilled.tokens - 1.0) else refilled
  }

  // The program's own bucket, updated in place.
  class Limiter {
    const rate: real
    const capacity: real
    var tokens: real
    var lastRefill: real

    ghost function View(): Bucket
      reads this
    {
      Bucket(rate, capacity, tokens, lastRefill)
    }

    constructor (limit: RateLimit, now: real)
      requires limit.Valid()
      ensures View() == NewBucket(limit, now) && View().Valid()
    {
      rate := limit.eventsPerSecond;
      capacity, tokens := limit.burst as real, limit.burst as real;
      lastRefill := now;
    }

    method Allow(reading: real) returns (allowed: bool)
      requires View().Valid()
      modifies this
      ensures View().Valid()
      ensures allowed == Allowed(old(View()), reading) && View() == After(old(View()), reading)
    {
      BucketStaysValid(View(), reading);
      var now := reading;
      if now < lastRefill {
        now := lastRefill;
      }
      var elapsed := now - lastRefill;
      tokens := Min(capacity, tokens + Earned(rate, elapsed));
      lastRefill := now;
      if tokens < 1.0 {
        return false;
      }
      tokens := tokens - 1.0;
      return true;
    }
  }

  // ---- Arithmetic -----------------------------------------------------------------------------

  lemma EarnedGrows(rate: real, a: real, b: real)
    requires rate > 0.0 && a <= b
    ensures Earned(rate, a) <= Earned(rate, b)
  {
    assert Earned(rate, b) - Earned(rate, a) == rate * (b - a);
  }

  lemma EarnedAdds(rate: real, a: real, b: real)
    ensures Earned(rate, a) + Earned(rate, b) == Earned(rate, a + b)
    ensures Earned(rate, 0.0) == 0.0
  {
  }

  // ---- One call -------------------------------------------------------------------------------

  lemma BucketStaysValid(b: Bucket, now: real)
    requires b.Valid()
    ensures Refilled(b, now).Valid() && After(b, now).Valid()
    ensures After(b, now).rate == b.rate && After(b, now).capacity == b.capacity
    ensures After(b, now).lastRefill == Max(now, b.lastRefill)
  {
    EarnedGrows(b.rate, 0.0, Max(now, b.lastRefill) - b.lastRefill);
    EarnedAdds(b.rate, 0.0, 0.0);
    hide Earned;
  }

  // The tokens spent and left are no more than those there were and those the time has earned.
  lemma OneCallIsPaidFor(b: Bucket, now: real, latest: real)
    requires b.Valid() && now <= latest
    ensures After(b, now).tokens + Earned(b.rate, Max(0.0, latest - After(b, now).lastRefill)) + (if Allowed(b, now) then 1.0 else 0.0)
      <= b.tokens + Earned(b.rate, Max(0.0, latest - b.lastRefill))
  {
    var clock := Max(now, b.lastRefill);
    EarnedAdds(b.rate, clock - b.lastRefill, Max(0.0, latest - clock));
    hide Earned;
  }

  // One event's worth of time after the last refill, the next call is allowed whatever came before.
  lemma PatienceIsRewarded(b: Bucket, now: real)
    requires b.Valid() && now >= b.lastRefill + 1.0 / b.rate
    ensures Allowed(b, now)
  {
    EarnedGrows(b.rate, 1.0 / b.rate, now - b.lastRefill);
    assert 1.0 / b.rate > 0.0;
    assert Earned(b.rate, 1.0 / b.rate) == 1.0;
    hide Earned;
  }

  // ---- Runs of calls --------------------------------------------------------------------------

  function AfterAll(b: Bucket, readings: seq<real>): Bucket
    decreases |readings|
  {
    if readings == [] then b else AfterAll(After(b, readings[0]), readings[1..])
  }

  function Verdicts(b: Bucket, readings: seq<real>): seq<bool>
    decreases |readings|
  {
    if readings == [] then [] else [Allowed(b, readings[0])] + Verdicts(After(b, readings[0]), readings[1..])
  }

  function AllowedCount(b: Bucket, readings: seq<real>): nat
    decreases |readings|
  {
    if readings == [] then 0
    else (if Allowed(b, readings[0]) then 1 else 0) + AllowedCount(After(b, readings[0]), readings[1..])
  }

  // Whatever the clock reads, backwards included, the tokens stay within 0 and the capacity.
  lemma {:induction false} TokensStayInRange(b: Bucket, readings: seq<real>)
    requires b.Valid()
    ensures AfterAll(b, readings).Valid() && AfterAll(b, readings).capacity == b.capacity && AfterAll(b, readings).rate == b.rate
    decreases |readings|
  {
    if readings == [] {
    } else {
      BucketStaysValid(b, readings[0]);
      hide After;
      TokensStayInRange(After(b, readings[0]), readings[1..]);
    }
  }

  lemma {:induction false} RunIsPaidFor(b: Bucket, readings: seq<real>, latest: real)
    requires b.Valid() && forall i :: 0 <= i < |readings| ==> readings[i] <= latest
    ensures AllowedCount(b, readings) as real <= b.tokens + Earned(b.rate, Max(0.0, latest - b.lastRefill))
    decreases |readings|
  {
    if readings == [] {
      EarnedGrows(b.rate, 0.0, Max(0.0, latest - b.lastRefill));
      EarnedAdds(b.rate, 0.0, 0.0);
    } else {
      BucketStaysValid(b, readings[0]);
      OneCallIsPaidFor(b, readings[0], latest);
      hide After, Allowed, Earned;
      RunIsPaidFor(After(b, readings[0]), readings[1..], latest);
    }
  }

  lemma RefilledOnce(b: Bucket, readings: seq<real>)
    requires b.Valid() && readings != []
    ensures Refilled(b, readings[0]).Valid()
    ensures AllowedCount(Refilled(b, readings[0]), readings) == AllowedCount(b, readings)
  {
    hide Earned;
    var refilled := Refilled(b, readings[0]);
    BucketStaysValid(b, readings[0]);
    EarnedAdds(b.rate, 0.0, 0.0);
    assert Max(readings[0], refilled.lastRefill) == refilled.lastRefill;
    assert Refilled(refilled, readings[0]) == refilled;
  }

  // In any window of time, from any earlier history, no more events are allowed than the burst and
  // what the window's length earns.
  lemma WindowIsBounded(b: Bucket, readings: seq<real>, opens: real, length: real)
    requires b.Valid() && length >= 0.0
    requires forall i :: 0 <= i < |readings| ==> opens <= readings[i] <= opens + length
    ensures AllowedCount(b, readings) as real <= b.capacity + Earned(b.rate, length)
  {
    EarnedGrows(b.rate, 0.0, length);
    EarnedAdds(b.rate, 0.0, 0.0);
    if readings != [] {
      var refilled := Refilled(b, readings[0]);
      RefilledOnce(b, readings);
      RunIsPaidFor(refilled, readings, opens + length);
      EarnedGrows(b.rate, Max(0.0, opens + length - refilled.lastRefill), length);
    }
    hide Earned, AllowedCount;
  }

  // The same for any stretch of a limiter's whole life.
  lemma WindowsAreBounded(limit: RateLimit, now: real, before: seq<real>, window: seq<real>, opens: real, length: real)
    requires limit.Valid() && length >= 0.0
    requires forall i :: 0 <= i < |window| ==> opens <= window[i] <= opens + length
    ensures AllowedCount(AfterAll(NewBucket(limit, now), before), window) as real
      <= limit.burst as real + Earned(limit.eventsPerSecond, length)
  {
    TokensStayInRange(NewBucket(limit, now), before);
    WindowIsBounded(AfterAll(NewBucket(limit, now), before), window, opens, length);
    hide AllowedCount, AfterAll, Earned;
  }

  // ---- Nothing is refused but at the bound --------------------------------------------------------

  // The limiter's own time after these readings: it never runs backwards.
  function Clock(now: real, readings: seq<real>): real {
    if readings == [] then now else Max(readings[|readings| - 1], Clock(now, readings[..|readings| - 1]))
  }

  // How many more could have been allowed between the k-th call and the last.
  ghost function Left(b: Bucket, calls: seq<real>, k: nat): real
    requires k < |calls|
  {
    b.capacity + Earned(b.rate, Clock(b.lastRefill, calls) - Clock(b.lastRefill, calls[..k + 1]))
      - AllowedCount(AfterAll(b, calls[..k]), calls[k..]) as real
  }

  ghost predicate IsLeast(tokens: real, b: Bucket, calls: seq<real>) {
    && (forall k :: 0 <= k < |calls| ==> tokens <= Left(b, calls, k))
    && (if calls == [] then tokens == b.capacity else exists k :: 0 <= k < |calls| && tokens == Left(b, calls, k))
  }

  lemma {:induction false} OneMoreAfter(b: Bucket, calls: seq<real>, last: real)
    ensures AfterAll(b, calls + [last]) == After(AfterAll(b, calls), last)
    ensures AllowedCount(b, calls + [last]) == AllowedCount(b, calls) + if Allowed(AfterAll(b, calls), last) then 1 else 0
    decreases |calls|
  {
    hide After, Allowed;
    if calls == [] {
      assert [last][1..] == [];
    } else {
      assert (calls + [last])[1..] == calls[1..] + [last];
      OneMoreAfter(After(b, calls[0]), calls[1..], last);
    }
  }

  lemma {:induction false} AfterAllJoins(b: Bucket, calls: seq<real>, k: nat)
    requires k <= |calls|
    ensures AfterAll(AfterAll(b, calls[..k]), calls[k..]) == AfterAll(b, calls)
    decreases |calls|
  {
    hide After;
    if k == 0 {
      assert calls[..0] == [] && calls[0..] == calls;
    } else {
      assert calls[..k][0] == calls[0] && calls[..k][1..] == calls[1..][..k - 1] && calls[k..] == calls[1..][k - 1..];
      AfterAllJoins(After(b, calls[0]), calls[1..], k - 1);
    }
  }

  lemma {:induction false} ClockIsKept(b: Bucket, calls: seq<real>)
    requires b.Valid()
    ensures AfterAll(b, calls).lastRefill == Clock(b.lastRefill, calls)
    decreases |calls|
  {
    if calls != [] {
      var init, last := calls[..|calls| - 1], calls[|calls| - 1];
      ClockIsKept(b, init);
      assert calls == init + [last];
      OneMoreAfter(b, init, last);
      TokensStayInRange(b, init);
      BucketStaysValid(AfterAll(b, init), last);
      hide After, AfterAll;
    }
  }

  // A window that is open already has what the time earned, and one less if the call is allowed.
  lemma OldWindow(b: Bucket, init: seq<real>, last: real, k: nat)
    requires k < |init|
    ensures Left(b, init + [last], k) == Left(b, init, k)
      + Earned(b.rate, Clock(b.lastRefill, init + [last]) - Clock(b.lastRefill, init)) - if Allowed(AfterAll(b, init), last) then 1.0 else 0.0
  {
    hide After, Allowed, AfterAll, Clock, AllowedCount, Earned;
    var calls := init + [last];
    assert calls[..k] == init[..k] && calls[k..] == init[k..] + [last] && calls[..k + 1] == init[..k + 1];
    AfterAllJoins(b, init, k);
    OneMoreAfter(AfterAll(b, calls[..k]), init[k..], last);
    EarnedAdds(b.rate, Clock(b.lastRefill, calls) - Clock(b.lastRefill, init), Clock(b.lastRefill, init) - Clock(b.lastRefill, init[..k + 1]));
  }

  // The newest window opens with the call.
  lemma NewWindow(b: Bucket, init: seq<real>, last: real)
    ensures Left(b, init + [last], |init|) == b.capacity - if Allowed(AfterAll(b, init), last) then 1.0 else 0.0
  {
    hide After, Allowed, AfterAll, Clock, AllowedCount, Earned;
    var calls := init + [last];
    assert calls[..|init|] == init && calls[|init|..] == [] + [last] && calls[..|init| + 1] == calls;
    OneMoreAfter(AfterAll(b, init), [], last);
    NoneAllowed(AfterAll(b, init));
    EarnedAdds(b.rate, 0.0, 0.0);
  }

  lemma NoneAllowed(b: Bucket)
    ensures AllowedCount(b, []) == 0 && AfterAll(b, []) == b
  {
  }

  lemma ClockRuns(now: real, init: seq<real>, last: real)
    ensures Clock(now, init + [last]) == Max(last, Clock(now, init))
  {
    assert (init + [last])[..|init|] == init;
  }

  // The tokens of a bucket full in the beginning are what the tightest window leaves.
  lemma {:induction false} TokensAreLeast(b: Bucket, calls: seq<real>)
    requires b.Valid() && b.tokens == b.capacity
    ensures IsLeast(AfterAll(b, calls).tokens, b, calls)
    decreases |calls|
  {
    hide Clock, Left, AllowedCount;
    if calls != [] {
      var init, last := calls[..|calls| - 1], calls[|calls| - 1];
      assert calls == init + [last];
      TokensAreLeast(b, init);
      LeastGoesOn(b, init, last);
    }
  }

  lemma LeastGoesOn(b: Bucket, init: seq<real>, last: real)
    requires b.Valid() && IsLeast(AfterAll(b, init).tokens, b, init)
    ensures IsLeast(AfterAll(b, init + [last]).tokens, b, init + [last])
  {
    hide Clock, Left, AllowedCount, AfterAll, Earned;
    var was, calls := AfterAll(b, init), init + [last];
    var earned := Earned(b.rate, Clock(b.lastRefill, calls) - Clock(b.lastRefill, init));
    OneMoreAfter(b, init, last);
    TokensStayInRange(b, init);
    ClockIsKept(b, init);
    ClockRuns(b.lastRefill, init, last);
    EarnedGrows(b.rate, 0.0, Clock(b.lastRefill, calls) - Clock(b.lastRefill, init));
    EarnedAdds(b.rate, 0.0, 0.0);
    forall k | 0 <= k < |calls|
      ensures Left(b, calls, k) == (if k < |init| then Left(b, init, k) + earned else b.capacity) - if Allowed(was, last) then 1.0 else 0.0
    {
      if k < |init| {
        OldWindow(b, init, last, k);
      } else {
        NewWindow(b, init, last);
      }
    }
    if init == [] || b.capacity <= was.tokens + earned {
      assert AfterAll(b, calls).tokens == Left(b, calls, |init|);
    } else {
      var k :| 0 <= k < |init| && was.tokens == Left(b, init, k);
      assert AfterAll(b, calls).tokens == Left(b, calls, k);
    }
  }

  // One more call, with this reading, keeps within the bound of the window that opened with the k-th.
  ghost predicate FitsWindow(limit: RateLimit, now: real, calls: seq<real>, reading: real, k: nat)
    requires k < |calls|
  {
    AllowedCount(AfterAll(NewBucket(limit, now), calls[..k]), calls[k..]) as real + 1.0
      <= limit.burst as real + Earned(limit.eventsPerSecond, Clock(now, calls + [reading]) - Clock(now, calls[..k + 1]))
  }

  // In a limiter's whole life, whatever its readings, a call is allowed exactly if no window would get more than the
  // burst and what its length earns: the bound is kept, and nothing is refused that would keep it.
  lemma AllowedExactlyWithinBounds(limit: RateLimit, now: real, calls: seq<real>, reading: real)
    requires limit.Valid()
    ensures Allowed(AfterAll(NewBucket(limit, now), calls), reading) <==>
      forall k: nat :: k < |calls| ==> FitsWindow(limit, now, calls, reading, k)
  {
    hide Clock, AllowedCount, AfterAll, Earned;
    var b := NewBucket(limit, now);
    var was := AfterAll(b, calls);
    var clock, before := Clock(now, calls + [reading]), Clock(now, calls);
    var earned := Earned(b.rate, clock - before);
    TokensAreLeast(b, calls);
    TokensStayInRange(b, calls);
    ClockIsKept(b, calls);
    ClockRuns(now, calls, reading);
    EarnedGrows(b.rate, 0.0, clock - before);
    EarnedAdds(b.rate, 0.0, 0.0);
    forall k: nat | k < |calls| ensures FitsWindow(limit, now, calls, reading, k) <==> Left(b, calls, k) + earned >= 1.0 {
      EarnedAdds(b.rate, clock - before, before - Clock(now, calls[..k + 1]));
    }
  }

  function Repeated(reading: real, count: nat): seq<real> {
    seq(count, _ => reading)
  }

  // The bound is met: calls all at one instant are allowed as long as whole tokens last.
  lemma {:induction false} BurstIsGranted(b: Bucket, count: nat, whole: nat)
    requires b.Valid() && b.tokens == whole as real
    ensures AllowedCount(b, Repeated(b.lastRefill, count)) == if count < whole then count else whole
    decreases count
  {
    if count == 0 {
    } else {
      EarnedAdds(b.rate, 0.0, 0.0);
      BucketStaysValid(b, b.lastRefill);
      hide Earned;
      assert Refilled(b, b.lastRefill) == b;
      assert Repeated(b.lastRefill, count)[1..] == Repeated(b.lastRefill, count - 1);
      BurstIsGranted(After(b, b.lastRefill), count - 1, if whole > 0 then whole - 1 else 0);
    }
  }

  // ---- Chat and game --------------------------------------------------------------------------

  datatype Call = Call(chat: bool, reading: real)

  datatype ConnectionLimiter = ConnectionLimiter(chat: Bucket, game: Bucket)

  function NewConnectionLimiter(chat: RateLimit, game: RateLimit, now: real): ConnectionLimiter {
    ConnectionLimiter(NewBucket(chat, now), NewBucket(game, now))
  }

  predicate CallAllowed(l: ConnectionLimiter, call: Call) {
    Allowed(if call.chat then l.chat else l.game, call.reading)
  }

  function AfterCall(l: ConnectionLimiter, call: Call): ConnectionLimiter {
    if call.chat then l.(chat := After(l.chat, call.reading)) else l.(game := After(l.game, call.reading))
  }

  function CallVerdicts(l: ConnectionLimiter, calls: seq<Call>): seq<bool>
    decreases |calls|
  {
    if calls == [] then [] else [CallAllowed(l, calls[0])] + CallVerdicts(AfterCall(l, calls[0]), calls[1..])
  }

  // The calls of one kind, and the verdicts they were given.
  function Readings(calls: seq<Call>, chat: bool): seq<real> {
    if calls == [] then []
    else (if calls[0].chat == chat then [calls[0].reading] else []) + Readings(calls[1..], chat)
  }

  function VerdictsOn(calls: seq<Call>, verdicts: seq<bool>, chat: bool): seq<bool>
    requires |calls| == |verdicts|
  {
    if calls == [] then []
    else (if calls[0].chat == chat then [verdicts[0]] else []) + VerdictsOn(calls[1..], verdicts[1..], chat)
  }

  lemma {:induction false} AVerdictEach(l: ConnectionLimiter, calls: seq<Call>)
    ensures |CallVerdicts(l, calls)| == |calls|
    decreases |calls|
  {
    if calls != [] {
      AVerdictEach(AfterCall(l, calls[0]), calls[1..]);
    }
  }

  // However chat and game events interleave, each kind is judged as if the other were not there.
  lemma {:induction false} KindsDoNotInterfere(l: ConnectionLimiter, calls: seq<Call>, chat: bool)
    ensures |CallVerdicts(l, calls)| == |calls|
    ensures VerdictsOn(calls, CallVerdicts(l, calls), chat) == Verdicts(if chat then l.chat else l.game, Readings(calls, chat))
    decreases |calls|
  {
    AVerdictEach(l, calls);
    if calls == [] {
    } else {
      KindsDoNotInterfere(AfterCall(l, calls[0]), calls[1..], chat);
      hide After, Allowed;
      assert CallVerdicts(l, calls)[1..] == CallVerdicts(AfterCall(l, calls[0]), calls[1..]);
      var rest := Readings(calls[1..], chat);
      if calls[0].chat == chat {
        assert ([calls[0].reading] + rest)[0] == calls[0].reading && ([calls[0].reading] + rest)[1..] == rest;
      } else {
        assert [] + rest == rest;
      }
    }
  }

  // The connection's pair of limiters, updated in place.
  class ConnectionRateLimiter {
    const chat: Limiter
    const game: Limiter

    ghost function View(): ConnectionLimiter
      reads this, chat, game
    {
      ConnectionLimiter(chat.View(), game.View())
    }

    ghost predicate Valid()
      reads this, chat, game
    {
      chat != game && chat.View().Valid() && game.View().Valid()
    }

    constructor (chatLimit: RateLimit, gameLimit: RateLimit, now: real)
      requires chatLimit.Valid() && gameLimit.Valid()
      ensures Valid() && fresh(chat) && fresh(game) && View() == NewConnectionLimiter(chatLimit, gameLimit, now)
    {
      chat := new Limiter(chatLimit, now);
      game := new Limiter(gameLimit, now);
    }

    method Allow(call: Call) returns (allowed: bool)
      requires Valid()
      modifies chat, game
      ensures Valid()
      ensures allowed == CallAllowed(old(View()), call) && View() == AfterCall(old(View()), call)
    {
      if call.chat {
        allowed := chat.Allow(call.reading);
      } else {
        allowed := game.Allow(call.reading);
      }
    }
  }
}
