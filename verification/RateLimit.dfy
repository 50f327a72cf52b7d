/** The fixed-window rate limiter: INCR, then EXPIRE by the request whose count came back as 1. */
module RateLimit {
  import opened Basics
  import Redis

  /** A Redis counter and its time to live, if it has one yet. */
  datatype Key = Absent | Present(count: nat, deadline: Option<int>)

  /** The key as Redis sees it at time t. */
  function At(k: Key, t: int): Key {
    if k.Present? && k.deadline.Some? && k.deadline.value <= t then Absent else k
  }

  function Incr(k: Key, t: int): (k': Key)
    ensures k'.Present? && k'.count >= 1
  {
    match At(k, t)
    case Absent => Present(1, None)
    case Present(n, d) => Present(n + 1, d)
  }

  function Expire(k: Key, t: int, window: nat): Key {
    match At(k, t)
    case Absent => Absent
    case Present(n, _) => Present(n, Some(t + window))
  }

  /** One key of the limiter: the counter, and the EXPIREs issued but not yet executed. */
  datatype Limiter = Limiter(key: Key, pending: nat)

  const Start: Limiter := Limiter(Absent, 0)

  /** A request's INCR reaches Redis, or an EXPIRE that was on its way does, or is lost. */
  datatype Call = Hit(t: int) | Land(t: int) | Lose(t: int)

  function Do(l: Limiter, c: Call, window: nat): Limiter {
    match c
    case Hit(t) =>
      var k := Incr(l.key, t);
      Limiter(k, if k.count == 1 then l.pending + 1 else l.pending)
    case Land(t) =>
      if l.pending == 0 then l else Limiter(Expire(l.key, t, window), l.pending - 1)
    case Lose(_) => if l.pending == 0 then l else Limiter(l.key, l.pending - 1)
  }

  predicate Admits(l: Limiter, c: Call, limit: nat) {
    c.Hit? && Incr(l.key, c.t).count <= limit
  }

  /** Calls reach the server in the order of their times. */
  predicate Timed(calls: seq<Call>, from: int) {
    calls == [] || (from <= calls[0].t && Timed(calls[1..], calls[0].t))
  }

  /** The requests admitted at a time in [a, b). */
  function Admitted(l: Limiter, calls: seq<Call>, window: nat, limit: nat, a: int, b: int): nat
    decreases |calls|
  {
    if calls == [] then 0
    else
      (if Admits(l, calls[0], limit) && a <= calls[0].t < b then 1 else 0)
      + Admitted(Do(l, calls[0], window), calls[1..], window, limit, a, b)
  }

  /** At most one EXPIRE is on its way, and while it is, the key cannot expire. */
  predicate Ok(l: Limiter) {
    l.pending <= 1 && (l.pending == 1 ==> l.key.Present? && l.key.deadline.None?) &&
      (l.key.Present? ==> l.key.count >= 1)
  }

  lemma OkKept(l: Limiter, c: Call, window: nat)
    requires Ok(l)
    ensures Ok(Do(l, c, window))
  {
  }

  /** The earliest time the next window can open. */
  function NextOpening(l: Limiter, now: int, window: nat): int {
    match At(l.key, now)
    case Absent => now
    case Present(_, d) => if d.Some? then d.value else now + window
  }

  /** What the open window still admits. */
  function Left(l: Limiter, now: int, limit: nat): nat {
    match At(l.key, now)
    case Absent => 0
    case Present(n, _) => if n < limit then limit - n else 0
  }

  lemma {:induction false} NothingLater(l: Limiter, calls: seq<Call>, window: nat, limit: nat, a: int, b: int, now: int)
    requires Timed(calls, now) && b <= now
    ensures Admitted(l, calls, window, limit, a, b) == 0
    decreases |calls|
  {
    if calls != [] {
      NothingLater(Do(l, calls[0], window), calls[1..], window, limit, a, b, calls[0].t);
    }
  }

  lemma OneLess(k: nat, x: nat)
    requires k >= 1
    ensures k * x == (k - 1) * x + x
  {
  }

  /** Up to b, at most k further windows open. */
  lemma {:induction false} Potential(l: Limiter, calls: seq<Call>, window: nat, limit: nat, a: int, b: int, now: int,
        k: nat)
    requires window > 0 && Ok(l) && Timed(calls, now) && b - NextOpening(l, now, window) <= k * window
    ensures Admitted(l, calls, window, limit, a, b) <= Left(l, now, limit) + k * limit
    decreases calls
  {
    if calls != [] {
      var c := calls[0];
      var l' := Do(l, c, window);
      OkKept(l, c, window);
      if c.t >= b {
        NothingLater(l, calls, window, limit, a, b, b);
      } else if c.Hit? && At(l.key, c.t).Absent? {
        assert k != 0;
        OneLess(k, window);
        OneLess(k, limit);
        Potential(l', calls[1..], window, limit, a, b, c.t, k - 1);
      } else {
        Potential(l', calls[1..], window, limit, a, b, c.t, k);
      }
    }
  }

  lemma {:induction false} FromTheStart(l: Limiter, calls: seq<Call>, window: nat, limit: nat, a: int, n: nat, now: int)
    requires window > 0 && limit > 0 && Ok(l) && Timed(calls, now)
    ensures Admitted(l, calls, window, limit, a, a + n * window) <= (limit - 1) + n * limit
    decreases calls
  {
    if calls != [] {
      if calls[0].t < a {
        OkKept(l, calls[0], window);
        FromTheStart(Do(l, calls[0], window), calls[1..], window, limit, a, n, calls[0].t);
      } else {
        Potential(l, calls, window, limit, a, a + n * window, a, n);
      }
    }
  }

  /**
   For one key and every trace, an interval of n windows holds at most (n + 1) * limit admitted
   requests, less one, however late the EXPIREs land.
   */
  lemma WindowBound(calls: seq<Call>, window: nat, limit: nat, a: int, n: nat, from: int)
    requires window > 0 && Timed(calls, from)
    ensures Admitted(Start, calls, window, limit, a, a + n * window) <= if limit == 0 then 0 else (n + 1) * limit - 1
  {
    if limit == 0 {
      NoneAdmitted(Start, calls, window, a, a + n * window);
    } else {
      FromTheStart(Start, calls, window, limit, a, n, from);
      OneLess(n + 1, limit);
    }
  }

  lemma {:induction false} NoneAdmitted(l: Limiter, calls: seq<Call>, window: nat, a: int, b: int)
    ensures Admitted(l, calls, window, 0, a, b) == 0
    decreases |calls|
  {
    if calls != [] {
      NoneAdmitted(Do(l, calls[0], window), calls[1..], window, a, b);
    }
  }

  // The bound is reached

  function Burst(m: nat, t: int): seq<Call> {
    if m == 0 then [] else [Hit(t)] + Burst(m - 1, t)
  }

  /** A burst of m requests in a window that still has room for them is admitted whole. */
  lemma {:induction false} BurstAdmitted(n: nat, d: int, m: nat, t: int, rest: seq<Call>, window: nat, limit: nat,
        a: int, b: int)
    requires n >= 1 && t < d && n + m <= limit && a <= t < b
    ensures Admitted(Limiter(Present(n, Some(d)), 0), Burst(m, t) + rest, window, limit, a, b)
         == m + Admitted(Limiter(Present(n + m, Some(d)), 0), rest, window, limit, a, b)
    decreases m
  {
    if m == 0 {
      assert Burst(m, t) + rest == rest;
    } else {
      assert (Burst(m, t) + rest)[1..] == Burst(m - 1, t) + rest;
      BurstAdmitted(n + 1, d, m - 1, t, rest, window, limit, a, b);
    }
  }

  lemma {:induction false} BurstTimed(m: nat, t: int, from: int, rest: seq<Call>)
    requires from <= t && Timed(rest, t)
    ensures Timed(Burst(m, t) + rest, from)
  {
    if m == 0 {
      assert Burst(m, t) + rest == rest;
    } else {
      assert (Burst(m, t) + rest)[1..] == Burst(m - 1, t) + rest;
      BurstTimed(m - 1, t, t, rest);
    }
  }

  /** n windows in a row, each opened and filled at once. */
  function Rounds(n: nat, t: int, window: nat, limit: nat): seq<Call>
    requires limit >= 1
  {
    if n == 0 then [] else [Hit(t), Land(t)] + (Burst(limit - 1, t) + Rounds(n - 1, t + window, window, limit))
  }

  /** One round: opening the window, landing its EXPIRE and filling it admits limit requests. */
  lemma RoundAdmitted(k: Key, t: int, fill: int, rest: seq<Call>, window: nat, limit: nat, a: int, b: int)
    requires limit >= 1 && At(k, t) == Absent && t <= fill < t + window && a <= fill < b
    ensures Admitted(Limiter(k, 0), [Hit(t), Land(t)] + (Burst(limit - 1, fill) + rest), window, limit, a, b)
         == (if a <= t < b then 1 else 0) + (limit - 1)
            + Admitted(Limiter(Present(limit, Some(t + window)), 0), rest, window, limit, a, b)
  {
    var filled := Burst(limit - 1, fill) + rest;
    var calls := [Hit(t), Land(t)] + filled;
    assert calls[1..] == [Land(t)] + filled && calls[1..][1..] == filled;
    assert Do(Limiter(k, 0), Hit(t), window) == Limiter(Present(1, None), 1);
    BurstAdmitted(1, t + window, limit - 1, fill, rest, window, limit, a, b);
  }

  lemma RoundTimed(t: int, fill: int, rest: seq<Call>, limit: nat)
    requires limit >= 1 && t <= fill && Timed(rest, fill)
    ensures Timed([Hit(t), Land(t)] + (Burst(limit - 1, fill) + rest), t)
  {
    var filled := Burst(limit - 1, fill) + rest;
    var calls := [Hit(t), Land(t)] + filled;
    BurstTimed(limit - 1, fill, t, rest);
    assert calls[1..] == [Land(t)] + filled && calls[1..][1..] == filled;
    assert Timed(calls[1..], t);
  }

  lemma {:induction false} RoundsTimed(n: nat, t: int, window: nat, limit: nat)
    requires limit >= 1
    ensures Timed(Rounds(n, t, window, limit), t)
  {
    if n > 0 {
      RoundsTimed(n - 1, t + window, window, limit);
      TimedEarlier(Rounds(n - 1, t + window, window, limit), t + window, t);
      RoundTimed(t, t, Rounds(n - 1, t + window, window, limit), limit);
    }
  }

  lemma TimedEarlier(calls: seq<Call>, from: int, sooner: int)
    requires Timed(calls, from) && sooner <= from
    ensures Timed(calls, sooner)
  {
  }

  lemma {:induction false} RoundsAdmitted(k: Key, n: nat, t: int, window: nat, limit: nat, a: int, b: int)
    requires limit >= 1 && window >= 2 && At(k, t) == Absent && a <= t && b == t + n * window - 1
    ensures Admitted(Limiter(k, 0), Rounds(n, t, window, limit), window, limit, a, b) == n * limit
    decreases n
  {
    if n > 0 {
      OneLess(n, window);
      OneLess(n, limit);
      Between(n - 1, window);
      RoundAdmitted(k, t, t, Rounds(n - 1, t + window, window, limit), window, limit, a, b);
      RoundsAdmitted(Present(limit, Some(t + window)), n - 1, t + window, window, limit, a, b);
    }
  }

  lemma Between(n: nat, window: nat)
    ensures 0 <= n * window
  {
  }

  /** The trace that reaches the bound: a window opened at 0 and filled just before it closes, then n full ones. */
  function Worst(n: nat, window: nat, limit: nat): seq<Call>
    requires limit >= 1 && window >= 1
  {
    [Hit(0), Land(0)] + (Burst(limit - 1, window - 1) + Rounds(n, window, window, limit))
  }

  /** No smaller bound holds for any limit, any n >= 1 and any window of two ticks or more. */
  lemma BoundIsReached(n: nat, window: nat, limit: nat)
    requires n >= 1 && limit >= 1 && window >= 2
    ensures Timed(Worst(n, window, limit), 0)
    ensures Admitted(Start, Worst(n, window, limit), window, limit, window - 1, window - 1 + n * window) ==
      (n + 1) * limit - 1
  {
    var a, b := window - 1, window - 1 + n * window;
    var rest := Rounds(n, window, window, limit);
    OneLess(n, window);
    OneLess(n + 1, limit);
    Between(n - 1, window);
    RoundsTimed(n, window, window, limit);
    TimedEarlier(rest, window, window - 1);
    RoundTimed(0, window - 1, rest, limit);
    RoundAdmitted(Absent, 0, window - 1, rest, window, limit, a, b);
    RoundsAdmitted(Present(limit, Some(window)), n, window, window, limit, a, b);
  }

  // The middleware

  datatype Verdict = Pass(remaining: nat) | TooMany(retry: int)

  /** The calls in order. */
  function DoAll(l: Limiter, calls: seq<Call>, window: nat): Limiter
    decreases |calls|
  {
    if calls == [] then l else DoAll(Do(l, calls[0], window), calls[1..], window)
  }

  lemma {:induction false} DoAllConcat(l: Limiter, xs: seq<Call>, ys: seq<Call>, window: nat)
    ensures DoAll(l, xs + ys, window) == DoAll(DoAll(l, xs, window), ys, window)
    decreases |xs|
  {
    if xs == [] {
      assert xs + ys == ys;
    } else {
      assert (xs + ys)[1..] == xs[1..] + ys;
      DoAllConcat(Do(l, xs[0], window), xs[1..], ys, window);
    }
  }

  /** The trace of one request: its INCR, what others did meanwhile, and its EXPIRE if it opened the window. */
  function Request(l: Limiter, t: int, meanwhile: seq<Call>, lands: int): seq<Call> {
    [Hit(t)] + (meanwhile + if Incr(l.key, t).count == 1 then [Land(lands)] else [])
  }

  /** The middleware of one bucket and identity; the counter is shared with every other request. */
  class Middleware {
    const redis: Redis.RedisService
    const key: string
    const limit: nat
    const windowSeconds: nat
    var pending: nat

    constructor (redis: Redis.RedisService, key: string, limit: nat, windowSeconds: nat)
      requires key !in redis.store
      ensures this.redis == redis && this.key == key && this.limit == limit && this.windowSeconds == windowSeconds
      ensures Valid() && View() == Start
    {
      this.redis, this.key, this.limit, this.windowSeconds, this.pending := redis, key, limit, windowSeconds, 0;
    }

    /** The key builder keeps counters apart from string keys. */
    ghost predicate Valid()
      reads this, redis
    {
      key in redis.store ==> redis.store[key].value.Count?
    }

    ghost function View(): Limiter
      reads this, redis
      requires Valid()
    {
      var count := if key in redis.store then Present(redis.store[key].value.n, redis.store[key].deadline) else Absent;
      Limiter(count, pending)
    }

    ghost function Window(): nat { windowSeconds * 1000 }

    method Hits(t: int) returns (count: nat)
      requires Valid()
      modifies this, redis
      ensures Valid() && View() == Do(old(View()), Hit(t), Window()) && count == Incr(old(View()).key, t).count
    {
      count := redis.Incr(key, t);
      if count == 1 {
        pending := pending + 1;
      }
    }

    method Lands(t: int)
      requires Valid()
      modifies this, redis
      ensures Valid() && View() == Do(old(View()), Land(t), Window())
    {
      if pending > 0 {
        redis.Expire(key, windowSeconds, t);
        pending := pending - 1;
      }
    }

    /** Any trace of commands on the key: how many requests it admits in [a, b). */
    method Serve(calls: seq<Call>, a: int, b: int) returns (admitted: nat)
      requires Valid()
      modifies this, redis
      ensures Valid() && View() == DoAll(old(View()), calls, Window())
      ensures admitted == Admitted(old(View()), calls, Window(), limit, a, b)
    {
      var i := 0;
      admitted := 0;
      while i < |calls|
        invariant i <= |calls| && Valid()
        invariant DoAll(View(), calls[i..], Window()) == DoAll(old(View()), calls, Window())
        invariant admitted + Admitted(View(), calls[i..], Window(), limit, a, b)
               == Admitted(old(View()), calls, Window(), limit, a, b)
      {
        assert calls[i..][1..] == calls[i + 1..];
        match calls[i] {
          case Hit(t) =>
            var count := Hits(t);
            if count <= limit && a <= t < b {
              admitted := admitted + 1;
            }
          case Land(t) =>
            Lands(t);
          case Lose(_) =>
            if pending > 0 {
              pending := pending - 1;
            }
        }
        i := i + 1;
      }
    }

    /** One request; the commands of others in meanwhile run between its own two. */
    method Handle(t: int, meanwhile: seq<Call>, lands: int) returns (verdict: Verdict)
      requires Valid() && windowSeconds > 0
      modifies this, redis
      ensures Valid() && View() == DoAll(old(View()), Request(old(View()), t, meanwhile, lands), Window())
      ensures verdict.Pass? <==> Admits(old(View()), Hit(t), limit)
      ensures var live := key in old(redis.store) &&
          (old(redis.store)[key].deadline.Some? ==> t < old(redis.store)[key].deadline.value);
        var count := if live then old(redis.store)[key].value.n + 1 else 1;
        if count <= limit then verdict == Pass(limit - count) else verdict.TooMany?
      ensures verdict.TooMany? ==>
        var ttl := Redis.SecondsLeft(redis.store, key, lands);
        verdict.retry > 0 && verdict.retry == if ttl > 0 then ttl else windowSeconds
    {
      ghost var before := View();
      var count := Hits(t);
      ghost var hit := View();
      var _ := Serve(meanwhile, 0, 0);
      ghost var last: seq<Call> := [];
      if count == 1 {
        ghost var waited := View();
        Lands(lands);
        last := [Land(lands)];
        assert DoAll(waited, last, Window()) == View();
      }
      DoAllConcat(hit, meanwhile, last, Window());
      assert Request(before, t, meanwhile, lands)[1..] == meanwhile + last;
      if count > limit {
        var ttl := redis.Ttl(key, lands);
        verdict := TooMany(if ttl > 0 then ttl else windowSeconds);
      } else {
        verdict := Pass(limit - count);
      }
    }
  }
}
