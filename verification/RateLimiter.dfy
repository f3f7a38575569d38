/** The rate limiter: a counter per scope whose expiry is pushed out by every call. */
module RateLimiter {
  import opened Wrappers
  import opened WorkerTypes
  import opened MemoryStore

  datatype Config = Config(windowMs: nat, maxRequests: nat)

  datatype Reply = Reply(allowed: bool, remaining: int, resetMs: int, limit: nat)

  /** The deadline a call leaves: the first call of a window sets it explicitly, the
      others through the increment, for which a window of zero means "never". */
  function DeadlineAfter(cfg: Config, count: int, now: int): Option<int> {
    if count == 1 then Some(now + cfg.windowMs) else Deadline(now, cfg.windowMs)
  }

  function AfterCall(c: Contents, cfg: Config, scope: string, now: int): Contents {
    var key := RateLimitKey(scope);
    var count := NextCount(c, key, now);
    Put(Settled(c, key, now), key, NumberText(count), DeadlineAfter(cfg, count, now))
  }

  class Limiter {
    const store: Store
    const cfg: Config

    constructor (store: Store, cfg: Config)
      ensures this.store == store && this.cfg == cfg
    {
      this.store, this.cfg := store, cfg;
    }

    method Limit(scope: string, weight: int, now: int) returns (reply: Reply)
      modifies store
      ensures var count := NextCount(old(store.View()), RateLimitKey(scope), now);
        && reply.allowed == (count <= cfg.maxRequests)
        && reply.limit == cfg.maxRequests
        && reply.remaining == (if reply.allowed then cfg.maxRequests - count - weight else 0)
        && (!reply.allowed ==> reply.resetMs == 0)
        && (reply.allowed && DeadlineAfter(cfg, count, now).Some? ==> reply.resetMs == cfg.windowMs)
      ensures store.View() == AfterCall(old(store.View()), cfg, scope, now)
    {
      var key := RateLimitKey(scope);
      var count := store.Incr(key, cfg.windowMs, now);
      if count == 1 { store.Expire(key, cfg.windowMs, now); }
      var allowed := count <= cfg.maxRequests;
      if !allowed { return Reply(false, 0, 0, cfg.maxRequests); }
      var resetMs := store.Pttl(key, now);
      var remaining := if cfg.maxRequests < count then 0 else cfg.maxRequests - count;
      return Reply(true, remaining - weight, resetMs, cfg.maxRequests);
    }
  }

  // ---------------------------------------------------------------- histories

  datatype Call = Call(scope: string, at: int)

  ghost predicate InOrder(calls: seq<Call>) {
    forall i, j | 0 <= i < j < |calls| :: calls[i].at <= calls[j].at
  }

  predicate Allowed(c: Contents, cfg: Config, call: Call) {
    NextCount(c, RateLimitKey(call.scope), call.at) <= cfg.maxRequests
  }

  /** How many calls of `scope` made between `from` and `until` are allowed. */
  function AllowedIn(c: Contents, cfg: Config, calls: seq<Call>, scope: string, from: int, until: int): nat
    decreases |calls|
  {
    if calls == [] then 0
    else
      One(calls[0].scope == scope && from <= calls[0].at <= until && Allowed(c, cfg, calls[0]))
      + AllowedIn(AfterCall(c, cfg, calls[0].scope, calls[0].at), cfg, calls[1..], scope, from, until)
  }

  /** Counters are what the limiter itself wrote. */
  ghost predicate CountersFrom(c: Contents, cfg: Config) {
    forall key | key in c.kv && key.RateLimitKey? :: c.kv[key].value.NumberText? && 1 <= c.kv[key].value.n
  }

  /** The counter of `scope` stands at `n` and does not expire before `until`. */
  predicate CountsOnUntil(c: Contents, scope: string, n: int, until: int) {
    var key := RateLimitKey(scope);
    && key in c.kv && c.kv[key].value == NumberText(n)
    && (c.kv[key].expiresAt.Some? ==> until <= c.kv[key].expiresAt.value)
  }

  lemma CallKeepsCounters(c: Contents, cfg: Config, scope: string, now: int)
    requires CountersFrom(c, cfg)
    ensures CountersFrom(AfterCall(c, cfg, scope, now), cfg)
  {
  }

  /** Once a window has started, what is left of the limit is all it can allow. */
  lemma {:induction false} WindowAllowsTheRest(
      c: Contents, cfg: Config, calls: seq<Call>, scope: string, n: int, start: int, from: int, until: int)
    requires 1 <= n && CountsOnUntil(c, scope, n, until) && until <= start + cfg.windowMs
    requires InOrder(calls) && forall i | 0 <= i < |calls| :: start <= calls[i].at
    ensures AllowedIn(c, cfg, calls, scope, from, until) <= if n < cfg.maxRequests then cfg.maxRequests - n else 0
    decreases |calls|
  {
    if calls != [] {
      var d, call := AfterCall(c, cfg, calls[0].scope, calls[0].at), calls[0];
      if until < call.at {
        NothingAllowedLate(c, cfg, calls, scope, from, until);
      } else if call.scope == scope {
        WindowAllowsTheRest(d, cfg, calls[1..], scope, n + 1, start, from, until);
      } else {
        WindowAllowsTheRest(d, cfg, calls[1..], scope, n, start, from, until);
      }
    }
  }

  lemma {:induction false} NothingAllowedLate(c: Contents, cfg: Config, calls: seq<Call>, scope: string, from: int,
      until: int)
    requires forall i | 0 <= i < |calls| :: until < calls[i].at
    ensures AllowedIn(c, cfg, calls, scope, from, until) == 0
    decreases |calls|
  {
    if calls != [] {
      NothingAllowedLate(AfterCall(c, cfg, calls[0].scope, calls[0].at), cfg, calls[1..], scope, from, until);
    }
  }

  /** Over every call history, any closed interval of the window's length contains at
      most `maxRequests` allowed calls of a scope. */
  lemma {:induction false} RateIsBounded(c: Contents, cfg: Config, calls: seq<Call>, scope: string, from: int)
    requires CountersFrom(c, cfg) && InOrder(calls)
    ensures AllowedIn(c, cfg, calls, scope, from, from + cfg.windowMs) <= cfg.maxRequests
    decreases |calls|
  {
    if calls != [] {
      var call := calls[0];
      var d, count := AfterCall(c, cfg, call.scope, call.at), NextCount(c, RateLimitKey(call.scope), call.at);
      CallKeepsCounters(c, cfg, call.scope, call.at);
      if call.scope == scope && from <= call.at <= from + cfg.windowMs {
        WindowAllowsTheRest(d, cfg, calls[1..], scope, count, call.at, from, from + cfg.windowMs);
      } else {
        RateIsBounded(d, cfg, calls[1..], scope, from);
      }
    }
  }

  // ---------------------------------------------------------------- which calls are allowed

  function After(c: Contents, cfg: Config, calls: seq<Call>): Contents
    decreases |calls|
  {
    if calls == [] then c
    else
      var before := After(c, cfg, calls[..|calls| - 1]);
      AfterCall(before, cfg, calls[|calls| - 1].scope, calls[|calls| - 1].at)
  }

  /** When `scope` was called. */
  function CallTimes(calls: seq<Call>, scope: string): seq<int> {
    if calls == [] then []
    else
      var last := calls[|calls| - 1];
      CallTimes(calls[..|calls| - 1], scope) + if last.scope == scope then [last.at] else []
  }

  /** The length of the longest tail of call times without a pause over `windowMs`. */
  function Streak(times: seq<int>, windowMs: nat): nat {
    if |times| < 2 then |times|
    else if times[|times| - 1] - times[|times| - 2] <= windowMs then Streak(times[..|times| - 1], windowMs) + 1
    else 1
  }

  predicate HoldsStreak(c: Contents, scope: string, times: seq<int>, windowMs: nat) {
    var key := RateLimitKey(scope);
    if times == [] then key !in c.kv
    else key in c.kv && c.kv[key] == Entry(NumberText(Streak(times, windowMs)), Some(times[|times| - 1] + windowMs))
  }

  lemma {:induction false} CounterIsStreak(cfg: Config, calls: seq<Call>, scope: string)
    requires cfg.windowMs > 0
    ensures HoldsStreak(After(EMPTY, cfg, calls), scope, CallTimes(calls, scope), cfg.windowMs)
    decreases |calls|
  {
    if calls != [] {
      var before, last := calls[..|calls| - 1], calls[|calls| - 1];
      CounterIsStreak(cfg, before, scope);
      var times := CallTimes(before, scope);
      if last.scope == scope {
        assert (times + [last.at])[..|times|] == times;
      } else {
        assert CallTimes(calls, scope) == times;
      }
    }
  }

  /** A call is allowed exactly when fewer than `maxRequests` calls of its scope went
      before it without a pause over the window: refused calls count too, so a
      caller that never pauses stays refused. */
  lemma {:induction false} AllowedExactlyWithinStreak(cfg: Config, calls: seq<Call>, call: Call)
    requires cfg.windowMs > 0
    ensures Allowed(After(EMPTY, cfg, calls), cfg, call) <==>
      Streak(CallTimes(calls + [call], call.scope), cfg.windowMs) <= cfg.maxRequests
  {
    CounterIsStreak(cfg, calls + [call], call.scope);
    assert (calls + [call])[..|calls|] == calls;
    var before, key := After(EMPTY, cfg, calls), RateLimitKey(call.scope);
    assert After(EMPTY, cfg, calls + [call]) == AfterCall(before, cfg, call.scope, call.at);
    assert AfterCall(before, cfg, call.scope, call.at).kv[key].value == NumberText(NextCount(before, key, call.at));
  }

  /** A window of zero lets each moment start afresh, unless a scope is called twice in
      one: the store then keeps its counter for good. */
  lemma ZeroWindow(c: Contents, cfg: Config, scope: string, now: int, later: int)
    requires cfg.windowMs == 0 && RateLimitKey(scope) !in c.kv && now < later
    ensures var once := AfterCall(c, cfg, scope, now);
      var twice := AfterCall(once, cfg, scope, now);
      && NextCount(once, RateLimitKey(scope), later) == 1 && NextCount(twice, RateLimitKey(scope), later) == 3
  {
  }
}
