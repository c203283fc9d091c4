/** The fixed-window rate limiter: one Redis counter per key, expiring a window after its first hit. */
module RateLimiter {
  import opened Wrappers

  /** A live counter key; an expired one is absent. */
  datatype Window = Window(hits: nat, expiresAt: int)

  datatype Record = Record(totalHits: nat, timeToExpire: int, isBlocked: bool, timeToBlockExpire: int)

  function Live(w: Option<Window>, now: int): Option<Window> {
    if w.Some? && now < w.value.expiresAt then w else None
  }

  /** The script: INCR, PEXPIRE on the first hit only; a non-positive expiry deletes the key. */
  function Increment(w: Option<Window>, now: int, ttl: int): (nat, Option<Window>) {
    var live := Live(w, now);
    if live.Some? then (live.value.hits + 1, Some(Window(live.value.hits + 1, live.value.expiresAt)))
    else (1, if ttl > 0 then Some(Window(1, now + ttl)) else None)
  }

  /** PTTL of a key that may be missing. */
  function Pttl(w: Option<Window>, now: int): int {
    if w.Some? then w.value.expiresAt - now else -2
  }

  function CeilSeconds(ms: int): int {
    (ms + 999) / 1000
  }

  // ---------------------------------------------------------------- how many hits get through

  predicate Ordered(times: seq<int>) {
    forall i, j | 0 <= i <= j < |times| :: times[i] <= times[j]
  }

  /** Of the hits at `times`, how many are admitted at a moment in [a, b). */
  function Admitted(w: Option<Window>, times: seq<int>, ttl: int, limit: nat, a: int, b: int): nat
    decreases |times|
  {
    if times == [] then 0
    else
      var (total, w') := Increment(w, times[0], ttl);
      (if total <= limit && a <= times[0] < b then 1 else 0) + Admitted(w', times[1..], ttl, limit, a, b)
  }

  function Room(w: Window, limit: nat): nat {
    if w.hits <= limit then limit - w.hits else 0
  }

  /** Until a window expires, no more hits get through than it still has room for. */
  lemma {:induction false} OneWindow(w: Window, times: seq<int>, ttl: int, limit: nat, a: int, b: int)
    requires Ordered(times) && b <= w.expiresAt
    ensures Admitted(Some(w), times, ttl, limit, a, b) <= Room(w, limit)
    decreases |times|
  {
    if times != [] && times[0] < w.expiresAt {
      OneWindow(Window(w.hits + 1, w.expiresAt), times[1..], ttl, limit, a, b);
    } else {
      NoneAfter(Some(w), times, ttl, limit, a, b);
    }
  }

  lemma {:induction false} NoneAfter(w: Option<Window>, times: seq<int>, ttl: int, limit: nat, a: int, b: int)
    requires Ordered(times) && (times != [] ==> b <= times[0])
    ensures Admitted(w, times, ttl, limit, a, b) == 0
    decreases |times|
  {
    if times != [] {
      NoneAfter(Increment(w, times[0], ttl).1, times[1..], ttl, limit, a, b);
    }
  }

  /** An interval as long as a window sees what is left of the window open at its start and one more window. */
  lemma {:induction false} TwoWindows(w: Option<Window>, times: seq<int>, ttl: int, limit: nat, a: int)
    requires ttl > 0 && limit > 0 && Ordered(times)
    requires w.Some? ==> w.value.hits >= 1
    ensures Admitted(w, times, ttl, limit, a, a + ttl)
              <= if w.Some? && w.value.expiresAt > a then Room(w.value, limit) + limit else 2 * limit - 1
    decreases |times|
  {
    if times != [] {
      var now := times[0];
      var (_, w') := Increment(w, now, ttl);
      if Live(w, now).Some? || now < a {
        TwoWindows(w', times[1..], ttl, limit, a);
      } else {
        OneWindow(w'.value, times[1..], ttl, limit, a, a + ttl);
      }
    }
  }

  /** Whatever was counted before, a window lets at most the limit through. */
  lemma WindowIsBounded(w: Option<Window>, times: seq<int>, ttl: int, limit: nat)
    requires ttl > 0 && Ordered(times) && times != [] && Live(w, times[0]).None?
    ensures Admitted(w, times, ttl, limit, times[0], times[0] + ttl) <= limit
  {
    OneWindow(Window(1, times[0] + ttl), times[1..], ttl, limit, times[0], times[0] + ttl);
  }

  /** In any half-open interval as long as the window fewer than twice the limit get through. */
  lemma RateIsBounded(times: seq<int>, ttl: int, limit: nat, a: int)
    requires ttl > 0 && Ordered(times)
    ensures Admitted(None, times, ttl, limit, a, a + ttl) <= if limit == 0 then 0 else 2 * limit - 1
  {
    if limit == 0 {
      NothingAtZero(None, times, ttl, a, a + ttl);
    } else {
      TwoWindows(None, times, ttl, limit, a);
    }
  }

  lemma {:induction false} NothingAtZero(w: Option<Window>, times: seq<int>, ttl: int, a: int, b: int)
    ensures Admitted(w, times, ttl, 0, a, b) == 0
    decreases |times|
  {
    if times != [] {
      NothingAtZero(Increment(w, times[0], ttl).1, times[1..], ttl, a, b);
    }
  }

  // ---------------------------------------------------------------- the bound is reached

  function Burst(n: nat, t: int): seq<int> {
    seq(n, _ => t)
  }

  /** One hit opens a window, the rest of its limit comes at its last moment, and a full limit at the next. */
  function WorstCase(ttl: int, limit: nat): seq<int>
    requires limit > 0
  {
    [0] + (Burst(limit - 1, ttl - 1) + Burst(limit, ttl))
  }

  lemma {:induction false} BurstFills(w: Option<Window>, n: nat, t: int, rest: seq<int>, ttl: int, limit: nat, a: int, b: int)
    requires a <= t < b && w.Some? && t < w.value.expiresAt && w.value.hits + n <= limit
    ensures Admitted(w, Burst(n, t) + rest, ttl, limit, a, b)
              == n + Admitted(Some(Window(w.value.hits + n, w.value.expiresAt)), rest, ttl, limit, a, b)
    decreases n
  {
    if n == 0 {
      assert Burst(n, t) + rest == rest;
    } else {
      assert (Burst(n, t) + rest)[1..] == Burst(n - 1, t) + rest;
      BurstFills(Increment(w, t, ttl).1, n - 1, t, rest, ttl, limit, a, b);
    }
  }

  /** 2 * limit - 1 is not only an upper bound: some schedule lets exactly that many through. */
  lemma BoundIsTight(ttl: int, limit: nat)
    requires ttl > 1 && limit > 0
    ensures Ordered(WorstCase(ttl, limit))
    ensures Admitted(None, WorstCase(ttl, limit), ttl, limit, 1, 1 + ttl) == 2 * limit - 1
  {
    var times := WorstCase(ttl, limit);
    assert times[1..] == Burst(limit - 1, ttl - 1) + Burst(limit, ttl);
    BurstFills(Some(Window(1, ttl)), limit - 1, ttl - 1, Burst(limit, ttl), ttl, limit, 1, 1 + ttl);
    var second := Burst(limit, ttl);
    assert second[1..] == Burst(limit - 1, ttl) + [];
    BurstFills(Some(Window(1, 2 * ttl)), limit - 1, ttl, [], ttl, limit, 1, 1 + ttl);
  }

  // ---------------------------------------------------------------- the storage

  /** One key of the limiter's storage. */
  class ThrottlerKey {
    var window: Option<Window>

    constructor ()
      ensures window == None
    {
      window := None;
    }

    /** Counts a hit. Only the first hit of a window sets its end; a blocked caller that waits as long as
      * it is told finds the window over. */
    method Hit(now: int, ttl: int, limit: nat) returns (record: Record)
      modifies this
      ensures (record.totalHits, window) == Increment(old(window), now, ttl)
      ensures record.isBlocked <==> record.totalHits > limit
      ensures Live(old(window), now).Some? ==> window.Some? && window.value.expiresAt == old(window).value.expiresAt
      ensures window.Some? ==> Live(window, now + 1000 * record.timeToExpire).None?
      ensures window.Some? && record.timeToExpire > 0 ==> Live(window, now + 1000 * (record.timeToExpire - 1)).Some?
      ensures record.timeToBlockExpire == if record.isBlocked then record.timeToExpire else 0
    {
      var current := 0;
      if window.Some? && now < window.value.expiresAt {
        current := window.value.hits + 1;
        window := Some(Window(current, window.value.expiresAt));
      } else {
        current := 1;
        window := if ttl > 0 then Some(Window(1, now + ttl)) else None;
      }
      var pttl := Pttl(window, now);
      var timeToExpireSec := CeilSeconds(if pttl > 0 then pttl else ttl);
      var isBlocked := current > limit;
      record := Record(current, timeToExpireSec, isBlocked, if isBlocked then timeToExpireSec else 0);
    }
  }
}
