/**
 * Two limiters: a token bucket on a real-valued clock that may step back, and a fixed window per key.
 */
module RateLimit {
  import opened Common

  // ---------------------------------------------------------------- the token bucket

  /** Milliseconds and tokens as reals; `rate` is tokens per second. */
  datatype Bucket = Bucket(capacity: real, rate: real, tokens: real, lastRefillAt: real)

  predicate Sane(b: Bucket) {
    b.capacity > 0.0 && b.rate > 0.0 && 0.0 <= b.tokens <= b.capacity
  }

  function Min(x: real, y: real): real {
    if x <= y then x else y
  }

  function Max(x: real, y: real): real {
    if x <= y then y else x
  }

  /** Tokens that time is worth. */
  function Worth(b: Bucket, ms: real): real {
    ms / 1000.0 * b.rate
  }

  function Refilled(b: Bucket, now: real): Bucket {
    if now - b.lastRefillAt <= 0.0 then b
    else b.(tokens := Min(b.capacity, b.tokens + Worth(b, now - b.lastRefillAt)), lastRefillAt := now)
  }

  /** `tryAcquire`: the bucket afterwards, and whether the tokens were granted. */
  function Tried(b: Bucket, now: real, cost: real): (Bucket, bool) {
    var r := Refilled(b, now);
    if r.tokens >= cost then (r.(tokens := r.tokens - cost), true) else (r, false)
  }

  /** A call at some clock reading; readings may go backwards. */
  datatype Call = Call(now: real, cost: real)

  function AfterCalls(b: Bucket, calls: seq<Call>): Bucket {
    if calls == [] then b
    else Tried(AfterCalls(b, calls[..|calls| - 1]), calls[|calls| - 1].now, calls[|calls| - 1].cost).0
  }

  /** What the calls were granted in all. */
  function Granted(b: Bucket, calls: seq<Call>): real {
    if calls == [] then 0.0
    else
      var c := calls[|calls| - 1];
      Granted(b, calls[..|calls| - 1])
      + (if Tried(AfterCalls(b, calls[..|calls| - 1]), c.now, c.cost).1 then c.cost else 0.0)
  }

  predicate CostsOk(b: Bucket, calls: seq<Call>) {
    forall i :: 0 <= i < |calls| ==> 0.0 < calls[i].cost <= b.capacity
  }

  /** The latest clock reading seen, starting from the bucket's own. */
  function Latest(b: Bucket, calls: seq<Call>): real {
    if calls == [] then b.lastRefillAt else Max(Latest(b, calls[..|calls| - 1]), calls[|calls| - 1].now)
  }

  lemma WorthAdds(b: Bucket, x: real, y: real)
    ensures Worth(b, x) + Worth(b, y) == Worth(b, x + y)
  {
  }

  lemma WorthGrows(b: Bucket, x: real)
    requires b.rate > 0.0 && x >= 0.0
    ensures Worth(b, x) >= 0.0
  {
  }

  lemma RefillKeeps(b: Bucket, now: real)
    requires Sane(b)
    ensures var r := Refilled(b, now);
      && Sane(r) && r.capacity == b.capacity && r.rate == b.rate
      && r.lastRefillAt == Max(b.lastRefillAt, now)
      && r.tokens <= b.tokens + Worth(b, r.lastRefillAt - b.lastRefillAt)
  {
    WorthGrows(b, Max(b.lastRefillAt, now) - b.lastRefillAt);
  }

  /** Conservation: what is left plus what was granted is at most what was there plus what time brought. */
  lemma {:induction false} TokensAreConserved(b: Bucket, calls: seq<Call>)
    requires Sane(b) && CostsOk(b, calls)
    ensures var r := AfterCalls(b, calls);
      && Sane(r) && r.capacity == b.capacity && r.rate == b.rate && r.lastRefillAt == Latest(b, calls)
      && r.tokens + Granted(b, calls) <= b.tokens + Worth(b, Latest(b, calls) - b.lastRefillAt)
  {
    hide Worth, Refilled, Max;
    if calls == [] {
      WorthAdds(b, 0.0, 0.0);
    } else {
      var front, c := calls[..|calls| - 1], calls[|calls| - 1];
      assert CostsOk(b, front) by {
        assert forall i :: 0 <= i < |front| ==> front[i] == calls[i];
      }
      TokensAreConserved(b, front);
      var before := AfterCalls(b, front);
      RefillKeeps(before, c.now);
      SameWorth(b, before, Latest(b, calls) - before.lastRefillAt);
      WorthAdds(b, Latest(b, front) - b.lastRefillAt, Latest(b, calls) - Latest(b, front));
      assert calls[|calls| - 1].cost > 0.0;
    }
  }

  lemma SameWorth(b: Bucket, c: Bucket, ms: real)
    requires b.rate == c.rate
    ensures Worth(b, ms) == Worth(c, ms)
  {
  }

  /**
   * Over any calls from any state, even if the clock steps back: tokens granted are at most the
   * capacity plus the rate times the time that passed.
   */
  lemma {:induction false} GrantsAreBounded(b: Bucket, calls: seq<Call>)
    requires Sane(b) && CostsOk(b, calls)
    ensures Granted(b, calls) <= b.capacity + Worth(b, Latest(b, calls) - b.lastRefillAt)
  {
    TokensAreConserved(b, calls);
  }

  lemma {:induction false} CallsSplit(b: Bucket, before: seq<Call>, calls: seq<Call>)
    ensures AfterCalls(b, before + calls) == AfterCalls(AfterCalls(b, before), calls)
    ensures Granted(b, before + calls) == Granted(b, before) + Granted(AfterCalls(b, before), calls)
  {
    hide Tried;
    if calls == [] {
      assert before + calls == before;
    } else {
      CallsSplit(b, before, calls[..|calls| - 1]);
      assert (before + calls)[..|before + calls| - 1] == before + calls[..|calls| - 1];
    }
  }

  /** Refilling at the first reading before the calls begin changes none of them. */
  lemma {:induction false} RefilledFirst(b: Bucket, calls: seq<Call>)
    requires Sane(b) && calls != []
    ensures var r := Refilled(b, calls[0].now);
      && AfterCalls(r, calls) == AfterCalls(b, calls) && Granted(r, calls) == Granted(b, calls)
      && Latest(r, calls) == Latest(b, calls)
  {
    var r, front := Refilled(b, calls[0].now), calls[..|calls| - 1];
    if front == [] {
      RefillKeeps(b, calls[0].now);
      RefilledTwice(b, calls[0].now);
      assert AfterCalls(r, front) == r && AfterCalls(b, front) == b;
      assert Latest(r, front) == r.lastRefillAt && Latest(b, front) == b.lastRefillAt;
    } else {
      hide Refilled, Tried;
      RefilledFirst(b, front);
    }
  }

  lemma RefilledTwice(b: Bucket, now: real)
    ensures Refilled(Refilled(b, now), now) == Refilled(b, now)
  {
  }

  /** When a stretch begins: at its first reading, or at the last refill if the clock has stepped back behind it. */
  function StretchStart(mid: Bucket, calls: seq<Call>): real
    requires calls != []
  {
    Max(mid.lastRefillAt, calls[0].now)
  }

  /** …and so over any stretch of any run, counting only the time that passes within it. */
  lemma {:induction false} EveryStretchIsBounded(b: Bucket, before: seq<Call>, calls: seq<Call>)
    requires Sane(b) && CostsOk(b, before + calls) && calls != []
    ensures var mid := AfterCalls(b, before);
      Granted(b, before + calls) - Granted(b, before)
        <= b.capacity + Worth(b, Latest(mid, calls) - StretchStart(mid, calls))
  {
    var mid := AfterCalls(b, before);
    CostsSplit(b, before, calls);
    CallsSplit(b, before, calls);
    TokensAreConserved(b, before);
    var r := Refilled(mid, calls[0].now);
    RefillKeeps(mid, calls[0].now);
    CostsCarryOver(b, r, calls);
    RefilledFirst(mid, calls);
    hide Worth, Latest, AfterCalls, Granted, CostsOk, Sane, Refilled;
    GrantsAreBounded(r, calls);
    SameWorth(b, r, Latest(mid, calls) - r.lastRefillAt);
  }

  lemma CostsSplit(b: Bucket, before: seq<Call>, calls: seq<Call>)
    requires CostsOk(b, before + calls)
    ensures CostsOk(b, before) && CostsOk(b, calls)
  {
    assert forall i :: 0 <= i < |before| ==> before[i] == (before + calls)[i];
    assert forall i :: 0 <= i < |calls| ==> calls[i] == (before + calls)[|before| + i];
  }

  lemma CostsCarryOver(b: Bucket, c: Bucket, calls: seq<Call>)
    requires CostsOk(b, calls) && c.capacity == b.capacity
    ensures CostsOk(c, calls)
  {
  }

  // ---------------------------------------------------------------- waiting for tokens

  /** `Math.ceil`. */
  function Ceil(x: real): (n: int)
    ensures x <= n as real < x + 1.0
  {
    -((-x).Floor)
  }

  function WaitMs(b: Bucket, cost: real): int
    requires b.rate > 0.0
  {
    Ceil((cost - b.tokens) / b.rate * 1000.0)
  }

  /** The clock reading at which the missing tokens are there. */
  function ReadyAt(b: Bucket, cost: real): real
    requires b.rate > 0.0
  {
    b.lastRefillAt + (cost - b.tokens) / b.rate * 1000.0
  }

  lemma DeficitWorth(b: Bucket, cost: real, ms: real)
    requires b.rate > 0.0
    ensures b.tokens + Worth(b, ms) >= cost <==> ms >= (cost - b.tokens) / b.rate * 1000.0
  {
    var need := (cost - b.tokens) / b.rate * 1000.0;
    assert Worth(b, need) == cost - b.tokens;
    WorthAdds(b, need, ms - need);
    if ms >= need {
      WorthGrows(b, ms - need);
    } else {
      WorthLoses(b, ms - need);
    }
  }

  lemma WorthLoses(b: Bucket, x: real)
    requires b.rate > 0.0 && x < 0.0
    ensures Worth(b, x) < 0.0
  {
  }

  /** A sole caller that has slept finds its tokens exactly when the clock has reached the ready time. */
  lemma WokenIff(b: Bucket, cost: real, wake: real)
    requires Sane(b) && b.tokens < cost <= b.capacity
    ensures Tried(b, wake, cost).1 <==> wake >= ReadyAt(b, cost)
  {
    hide Worth;
    DeficitWorth(b, cost, wake - b.lastRefillAt);
    if wake - b.lastRefillAt <= 0.0 {
      WorthSign(b, wake - b.lastRefillAt);
    }
  }

  lemma WorthSign(b: Bucket, x: real)
    requires b.rate > 0.0 && x <= 0.0
    ensures Worth(b, x) <= 0.0
  {
  }

  /**
   * Before the call it can be told whether one sleep is enough, however much longer than requested
   * it lasts: when the clock is behind the last refill by no more than the request was rounded up.
   */
  lemma OneSleepSufficesIff(b: Bucket, now: real, cost: real)
    requires Sane(b) && 0.0 < cost <= b.capacity && Refilled(b, now).tokens < cost
    ensures var r := Refilled(b, now);
      (forall wake: real :: wake >= now + WaitMs(r, cost) as real ==> Tried(r, wake, cost).1)
      <==> r.lastRefillAt - now <= WaitMs(r, cost) as real - (cost - r.tokens) / r.rate * 1000.0
  {
    hide Refilled, Tried, WaitMs, Sane;
    RefillKeeps(b, now);
    var r := Refilled(b, now);
    var least := now + WaitMs(r, cost) as real;
    WokenIff(r, cost, least);
    forall wake: real | wake >= least && least >= ReadyAt(r, cost) ensures Tried(r, wake, cost).1 {
      WokenIff(r, cost, wake);
    }
  }

  /** So it always is when the clock has not stepped back behind the last refill. */
  lemma OneSleepSuffices(b: Bucket, now: real, cost: real, wake: real)
    requires Sane(b) && 0.0 < cost <= b.capacity && Refilled(b, now).tokens < cost
    requires now >= b.lastRefillAt && wake >= now + WaitMs(Refilled(b, now), cost) as real
    ensures Tried(Refilled(b, now), wake, cost).1
  {
    RefillKeeps(b, now);
    OneSleepSufficesIff(b, now, cost);
  }

  /** A clock that steps back makes a caller sleep again: a full second's wait brings nothing here. */
  lemma SteppedBackClockSleepsAgain()
    ensures var b := Bucket(1.0, 1.0, 0.0, 5000.0);
      && Sane(b) && WaitMs(Refilled(b, 4000.0), 1.0) == 1000
      && !Tried(Refilled(b, 4000.0), 4000.0 + 1000.0, 1.0).1
  {
    var b := Bucket(1.0, 1.0, 0.0, 5000.0);
    assert Refilled(b, 4000.0) == b;
    assert (1.0 - 0.0) / 1.0 * 1000.0 == 1000.0;
    assert (-1000.0 as real).Floor == -1000;
  }

  class TokenBucket {
    const capacity: real
    const refillPerSecond: real
    var tokens: real
    var lastRefillAt: real

    ghost predicate Valid()
      reads this
    {
      Sane(View())
    }

    ghost function View(): Bucket
      reads this
    {
      Bucket(capacity, refillPerSecond, tokens, lastRefillAt)
    }

    constructor (capacity: real, refillPerSecond: real, now: real)
      requires capacity > 0.0 && refillPerSecond > 0.0
      ensures Valid() && View() == Bucket(capacity, refillPerSecond, capacity, now)
    {
      this.capacity, this.refillPerSecond := capacity, refillPerSecond;
      tokens, lastRefillAt := capacity, now;
    }

    method Refill(now: real)
      requires Valid()
      modifies this
      ensures Valid() && View() == Refilled(old(View()), now)
    {
      ghost var b := View();
      RefillKeeps(b, now);
      var elapsed := now - lastRefillAt;
      if elapsed <= 0.0 {
        return;
      }
      tokens := Min(capacity, tokens + elapsed / 1000.0 * refillPerSecond);
      lastRefillAt := now;
    }

    method TryAcquire(now: real, cost: real) returns (granted: bool)
      requires Valid() && 0.0 < cost <= capacity
      modifies this
      ensures Valid() && (View(), granted) == Tried(old(View()), now, cost)
    {
      Refill(now);
      granted := tokens >= cost;
      if granted {
        tokens := tokens - cost;
      }
    }

    /** Wait and retry over the clock readings there are; `sleeps` counts the waits. */
    method Acquire(clock: seq<real>, cost: real) returns (granted: bool, sleeps: nat)
      requires Valid() && 0.0 < cost <= capacity && clock != []
      modifies this
      ensures Valid() && sleeps < |clock|
      ensures var calls := seq(sleeps + 1, i requires 0 <= i <= sleeps => Call(if i < |clock| then clock[i] else 0.0, cost));
        && View() == AfterCalls(old(View()), calls)
        && Granted(old(View()), calls) == (if granted then cost else 0.0)
      ensures !granted ==> sleeps == |clock| - 1
    {
      hide Tried, Refilled;
      sleeps := 0;
      ghost var b, calls := View(), [];
      granted := false;
      while true
        invariant 0 <= sleeps < |clock|
        invariant Valid() && !granted && |calls| == sleeps
        invariant forall i :: 0 <= i < sleeps ==> calls[i] == Call(clock[i], cost)
        invariant View() == AfterCalls(b, calls) && Granted(b, calls) == 0.0
        decreases |clock| - sleeps
      {
        ghost var c := Call(clock[sleeps], cost);
        assert (calls + [c])[..|calls|] == calls;
        granted := TryAcquire(clock[sleeps], cost);
        calls := calls + [c];
        assert calls == seq(sleeps + 1, i requires 0 <= i <= sleeps => Call(if i < |clock| then clock[i] else 0.0, cost));
        if granted || sleeps == |clock| - 1 {
          return;
        }
        sleeps := sleeps + 1;
      }
    }
  }

  // ---------------------------------------------------------------- the fixed window

  const WINDOW: int := 60000

  datatype Window = Window(tokens: int, resetAt: int)

  /** One request of a key: its window afterwards, and whether it was let through. */
  function Hit(w: Option<Window>, limit: nat, now: int): (Window, bool) {
    var current := if w.None? || w.value.resetAt <= now then Window(limit, now + WINDOW) else w.value;
    if current.tokens <= 0 then (current, false) else (current.(tokens := current.tokens - 1), true)
  }

  function AfterHits(limit: nat, hits: seq<int>): Option<Window> {
    if hits == [] then None else Some(Hit(AfterHits(limit, hits[..|hits| - 1]), limit, hits[|hits| - 1]).0)
  }

  /** Requests let through with a time in [from, until). */
  function Admitted(limit: nat, hits: seq<int>, from: int, until: int): nat {
    if hits == [] then 0
    else
      var front, now := hits[..|hits| - 1], hits[|hits| - 1];
      Admitted(limit, front, from, until)
      + (if from <= now < until && Hit(AfterHits(limit, front), limit, now).1 then 1 else 0)
  }

  /** No reading lies behind the start of the window it meets. */
  predicate InWindows(limit: nat, hits: seq<int>) {
    hits == [] || (
      var before := AfterHits(limit, hits[..|hits| - 1]);
      InWindows(limit, hits[..|hits| - 1]) && (before.Some? ==> before.value.resetAt - WINDOW <= hits[|hits| - 1]))
  }

  lemma {:induction false} WindowIsCurrent(limit: nat, hits: seq<int>)
    requires hits != [] && InWindows(limit, hits)
    ensures var w := AfterHits(limit, hits);
      w.Some? && 0 <= w.value.tokens <= limit && w.value.resetAt - WINDOW <= hits[|hits| - 1] < w.value.resetAt
  {
    if |hits| > 1 {
      WindowIsCurrent(limit, hits[..|hits| - 1]);
    } else {
      assert hits[..0] == [];
    }
  }

  /** What an interval may hold, given the current window: its own tokens, and a window before it. */
  function Allowance(limit: nat, w: Window, from: int, until: int): int {
    if from >= w.resetAt - WINDOW then limit - w.tokens
    else if until > w.resetAt - WINDOW then 2 * limit - w.tokens
    else 2 * limit
  }

  /** Nothing that got through lies behind the end of the current window. */
  lemma {:induction false} AdmittedLate(limit: nat, hits: seq<int>, from: int, until: int)
    requires InWindows(limit, hits) && (hits != [] ==> AfterHits(limit, hits).value.resetAt <= from)
    ensures Admitted(limit, hits, from, until) == 0
  {
    if hits != [] {
      WindowIsCurrent(limit, hits);
      AdmittedLate(limit, hits[..|hits| - 1], from, until);
    }
  }

  lemma {:induction false} WindowBound(limit: nat, hits: seq<int>, from: int, until: int)
    requires hits != [] && InWindows(limit, hits) && until <= from + WINDOW
    ensures Admitted(limit, hits, from, until) <= Allowance(limit, AfterHits(limit, hits).value, from, until)
  {
    var front, now := hits[..|hits| - 1], hits[|hits| - 1];
    WindowIsCurrent(limit, hits);
    if front == [] {
      assert Admitted(limit, front, from, until) == 0;
    } else {
      WindowIsCurrent(limit, front);
      WindowBound(limit, front, from, until);
      if AfterHits(limit, front).value.resetAt <= now && from >= now {
        AdmittedLate(limit, front, from, until);
      }
    }
  }

  /** At most twice the limit of one key gets through in any minute, wherever it begins. */
  lemma AtMostTwiceTheLimit(limit: nat, hits: seq<int>, from: int)
    requires InWindows(limit, hits)
    ensures Admitted(limit, hits, from, from + WINDOW) <= 2 * limit
  {
    if hits != [] {
      WindowIsCurrent(limit, hits);
      WindowBound(limit, hits, from, from + WINDOW);
    }
  }

  /** The clock does not go backwards. */
  predicate InTime(hits: seq<int>) {
    |hits| <= 1 || (InTime(hits[..|hits| - 1]) && hits[|hits| - 2] <= hits[|hits| - 1])
  }

  /** A clock that does not go backwards keeps its readings in their windows. */
  lemma {:induction false} InTimeIsInWindows(limit: nat, hits: seq<int>)
    requires InTime(hits)
    ensures InWindows(limit, hits)
  {
    if |hits| > 1 {
      InTimeIsInWindows(limit, hits[..|hits| - 1]);
      WindowIsCurrent(limit, hits[..|hits| - 1]);
    } else if |hits| == 1 {
      assert hits[..0] == [];
    }
  }

  /** A clock that steps back, so that later windows serve earlier readings. */
  const STEPPED_BACK: seq<int> := [100000, 159000, 160000, 160000, 220000, 170000, 280000, 170000]

  lemma {:induction false} NextHit(limit: nat, hits: seq<int>, now: int, from: int, until: int)
    ensures AfterHits(limit, hits + [now]) == Some(Hit(AfterHits(limit, hits), limit, now).0)
    ensures Admitted(limit, hits + [now], from, until) == Admitted(limit, hits, from, until)
      + (if from <= now < until && Hit(AfterHits(limit, hits), limit, now).1 then 1 else 0)
  {
    assert (hits + [now])[..|hits|] == hits;
  }

  /** Otherwise twice the limit is no bound: here five of limit two get through in one minute. */
  lemma SteppedBackWindowsAdmitMore()
    ensures Admitted(2, STEPPED_BACK, 159000, 159000 + WINDOW) == 5
  {
    hide AfterHits, Admitted;
    var h := STEPPED_BACK;
    NoHits();
    NextHit(2, [], 100000, 159000, 219000);
    NextHit(2, h[..1], 159000, 159000, 219000);
    NextHit(2, h[..2], 160000, 159000, 219000);
    NextHit(2, h[..3], 160000, 159000, 219000);
    NextHit(2, h[..4], 220000, 159000, 219000);
    NextHit(2, h[..5], 170000, 159000, 219000);
    NextHit(2, h[..6], 280000, 159000, 219000);
    NextHit(2, h[..7], 170000, 159000, 219000);
    assert [] + [100000] == h[..1] && h[..1] + [159000] == h[..2] && h[..2] + [160000] == h[..3];
    assert h[..3] + [160000] == h[..4] && h[..4] + [220000] == h[..5] && h[..5] + [170000] == h[..6];
    assert h[..6] + [280000] == h[..7] && h[..7] + [170000] == h;
  }

  lemma NoHits()
    ensures AfterHits(2, []) == None && Admitted(2, [], 159000, 219000) == 0
  {
  }

  /** At most the limit gets through in one window of the limiter. */
  lemma {:induction false} AtMostTheLimitPerWindow(limit: nat, hits: seq<int>)
    requires hits != [] && InWindows(limit, hits)
    ensures var w := AfterHits(limit, hits).value;
      Admitted(limit, hits, w.resetAt - WINDOW, w.resetAt) == limit - w.tokens <= limit
  {
    WindowIsCurrent(limit, hits);
    WindowExact(limit, hits);
  }

  lemma {:induction false} WindowExact(limit: nat, hits: seq<int>)
    requires hits != [] && InWindows(limit, hits)
    ensures var w := AfterHits(limit, hits).value;
      Admitted(limit, hits, w.resetAt - WINDOW, w.resetAt) == limit - w.tokens
  {
    var front, now := hits[..|hits| - 1], hits[|hits| - 1];
    WindowIsCurrent(limit, hits);
    if front == [] {
      assert Admitted(limit, front, now, now + WINDOW) == 0;
    } else {
      WindowIsCurrent(limit, front);
      WindowExact(limit, front);
      if AfterHits(limit, front).value.resetAt <= now {
        AdmittedLate(limit, front, now, now + WINDOW);
      }
    }
  }

  /** The limiter's store: one window per key, replaced or counted down in place. */
  class FixedWindowLimiter {
    var store: map<string, Window>
    const limit: nat

    constructor (limit: nat)
      ensures store == map[] && this.limit == limit
    {
      this.limit := limit;
      store := map[];
    }

    function WindowOf(key: string): Option<Window>
      reads this
    {
      if key in store then Some(store[key]) else None
    }

    /** Let a request through or refuse it; other keys are not touched. */
    method Request(key: string, now: int) returns (admitted: bool, retryAfter: int)
      modifies this
      ensures key in store && (store[key], admitted) == Hit(old(WindowOf(key)), limit, now)
      ensures forall other :: other != key ==> WindowOf(other) == old(WindowOf(other))
      ensures !admitted && limit > 0 ==> 0 < store[key].resetAt - now <= retryAfter * 1000 < store[key].resetAt - now + 1000
    {
      if key !in store || store[key].resetAt <= now {
        store := store[key := Window(limit, now + WINDOW)];
      }
      var b := store[key];
      if b.tokens <= 0 {
        retryAfter := (b.resetAt - now + 999) / 1000;
        return false, retryAfter;
      }
      store := store[key := b.(tokens := b.tokens - 1)];
      admitted, retryAfter := true, 0;
    }
  }
}
