/** A fixed-window counter per key. */
module RateLimiter {
  import opened Base
  import opened SortedIds

  const WINDOW: nat := MINUTE
  const LIMIT: nat := 10

  datatype Window = Window(count: nat, start: Time)

  type Counters = map<string, Window>

  predicate Stale(w: Window, now: Time) { now > w.start + WINDOW }

  /** `Allow`: the decision and the counters after it. */
  function AllowIn(c: Counters, key: string, now: Time): (Counters, bool) {
    if key !in c || Stale(c[key], now) then (c[key := Window(1, now)], true)
    else if c[key].count >= LIMIT then (c, false)
    else (c[key := Window(c[key].count + 1, c[key].start)], true)
  }

  /** `purgeExpired`. */
  function Purged(c: Counters, now: Time): Counters {
    map k | k in c && !Stale(c[k], now) :: c[k]
  }

  // ---- the limiter -------------------------------------------------------------------

  class Counter {
    var count: nat
    var windowAt: Time

    constructor (count: nat, windowAt: Time)
      ensures this.count == count && this.windowAt == windowAt
    {
      this.count, this.windowAt := count, windowAt;
    }
  }

  class Limiter {
    var counters: map<string, Counter>

    ghost predicate Valid()
      reads this
    {
      forall k, l | k in counters && l in counters && k != l :: counters[k] != counters[l]
    }

    ghost function Contents(): Counters
      reads this, counters.Values
    {
      map k | k in counters :: Window(counters[k].count, counters[k].windowAt)
    }

    constructor ()
      ensures Valid() && Contents() == map[]
    {
      counters := map[];
    }

    method Allow(key: string, now: Time) returns (allowed: bool)
      requires Valid()
      modifies this, counters.Values
      ensures Valid() && fresh(counters.Values - old(counters.Values))
      ensures (Contents(), allowed) == AllowIn(old(Contents()), key, now)
    {
      if key !in counters || now > counters[key].windowAt + WINDOW {
        var c := new Counter(1, now);
        counters := counters[key := c];
        assert Contents() == old(Contents())[key := Window(1, now)];
        return true;
      }
      var c := counters[key];
      if c.count >= LIMIT { return false; }
      c.count := c.count + 1;
      assert Contents() == old(Contents())[key := Window(c.count, c.windowAt)];
      allowed := true;
    }

    method PurgeExpired(now: Time)
      requires Valid()
      modifies this
      ensures Valid() && counters.Values <= old(counters.Values)
      ensures Contents() == Purged(old(Contents()), now)
    {
      var keys := Listing(counters.Keys);
      for i := 0 to |keys|
        invariant Valid() && counters.Values <= old(counters.Values)
        invariant forall k | k in counters :: k in old(counters) && counters[k] == old(counters[k])
        invariant forall k | k in old(counters) && k !in counters :: Stale(old(Contents())[k], now)
        invariant forall k | k in keys[..i] && k in counters :: !Stale(old(Contents())[k], now)
      {
        assert keys[..i + 1] == keys[..i] + [keys[i]];
        assert keys[i] in old(counters).Keys;
        if keys[i] in counters && now > counters[keys[i]].windowAt + WINDOW { counters := counters - {keys[i]}; }
      }
      assert keys[..|keys|] == keys;
      forall k | k in counters ensures !Stale(old(Contents())[k], now) {
        assert k in old(counters).Keys;
      }
    }
  }

  // ---- runs -----------------------------------------------------------------------------

  datatype Request = Request(key: string, at: Time)

  /** The decisions of a run, in order. */
  function Decisions(c: Counters, requests: seq<Request>): seq<bool>
    decreases |requests|
  {
    if requests == [] then []
    else
      var (next, allowed) := AllowIn(c, requests[0].key, requests[0].at);
      [allowed] + Decisions(next, requests[1..])
  }

  /** How many requests of one key a run admits. */
  function Admitted(c: Counters, requests: seq<Request>, key: string): nat
    decreases |requests|
  {
    if requests == [] then 0
    else
      var (next, allowed) := AllowIn(c, requests[0].key, requests[0].at);
      (if allowed && requests[0].key == key then 1 else 0) + Admitted(next, requests[1..], key)
  }

  predicate Ordered(requests: seq<Request>) {
    forall i, j | 0 <= i < j < |requests| :: requests[i].at <= requests[j].at
  }

  predicate Within(requests: seq<Request>, from: Time, to: Time) {
    forall i | 0 <= i < |requests| :: from <= requests[i].at <= to
  }

  /** Counters as a run leaves them: every window has admitted at least one request and no more than the limit. */
  predicate Counted(c: Counters) { forall k | k in c :: 1 <= c[k].count <= LIMIT }

  lemma AllowKeepsCounted(c: Counters, key: string, now: Time)
    requires Counted(c)
    ensures Counted(AllowIn(c, key, now).0)
  {
  }

  /** Within one window at most the limit is admitted, what it has already admitted included. */
  lemma {:induction false} AtMostTheLimitPerWindow(c: Counters, requests: seq<Request>, key: string)
    requires Counted(c) && key in c && Within(requests, 0, c[key].start + WINDOW)
    ensures c[key].count + Admitted(c, requests, key) <= LIMIT
    decreases |requests|
  {
    if requests != [] {
      var next := AllowIn(c, requests[0].key, requests[0].at).0;
      AllowKeepsCounted(c, requests[0].key, requests[0].at);
      AtMostTheLimitPerWindow(next, requests[1..], key);
    }
  }

  /** In any interval of a window's length at most the rest of the open window and one more window are admitted: nineteen, one less than twice the limit. */
  lemma {:induction false} AtMostNineteenPerInterval(c: Counters, requests: seq<Request>, key: string, from: Time)
    requires Counted(c) && Ordered(requests) && Within(requests, from, from + WINDOW)
    ensures Admitted(c, requests, key) <= LIMIT + (if key in c then LIMIT - c[key].count else 0)
    ensures Admitted(c, requests, key) <= 2 * LIMIT - 1
    decreases |requests|
  {
    if requests != [] {
      var r := requests[0];
      var next := AllowIn(c, r.key, r.at).0;
      AllowKeepsCounted(c, r.key, r.at);
      if r.key == key && (key !in c || Stale(c[key], r.at)) {
        AtMostTheLimitPerWindow(next, requests[1..], key);
      } else {
        AtMostNineteenPerInterval(next, requests[1..], key, from);
      }
    }
  }

  /** The state a run reaches. */
  function After(c: Counters, requests: seq<Request>): Counters
    decreases |requests|
  {
    if requests == [] then c else After(AllowIn(c, requests[0].key, requests[0].at).0, requests[1..])
  }

  lemma {:induction false} RunsStayCounted(c: Counters, requests: seq<Request>)
    requires Counted(c)
    ensures Counted(After(c, requests))
    decreases |requests|
  {
    if requests != [] {
      AllowKeepsCounted(c, requests[0].key, requests[0].at);
      RunsStayCounted(AllowIn(c, requests[0].key, requests[0].at).0, requests[1..]);
    }
  }

  /** From an empty limiter, whatever came before, no key is admitted more than nineteen times in any sixty seconds. */
  lemma NoBurstExceedsNineteen(before: seq<Request>, requests: seq<Request>, key: string, from: Time)
    requires Ordered(requests) && Within(requests, from, from + WINDOW)
    ensures Admitted(After(map[], before), requests, key) <= 2 * LIMIT - 1
  {
    RunsStayCounted(map[], before);
    AtMostNineteenPerInterval(After(map[], before), requests, key, from);
  }

  // ---- purging -----------------------------------------------------------------------------

  /** The two differ only in windows that are stale at this time. */
  predicate Same(c: Counters, d: Counters, now: Time) {
    && (forall k | k in c && k in d :: c[k] == d[k])
    && (forall k | k in c && k !in d :: Stale(c[k], now))
    && (forall k | k in d && k !in c :: Stale(d[k], now))
  }

  lemma {:induction false} StaleWindowsNeverDecide(c: Counters, d: Counters, requests: seq<Request>, now: Time)
    requires Same(c, d, now) && Ordered(requests) && (forall i | 0 <= i < |requests| :: now <= requests[i].at)
    ensures Decisions(c, requests) == Decisions(d, requests)
    decreases |requests|
  {
    if requests != [] {
      var r := requests[0];
      var (c', a) := AllowIn(c, r.key, r.at);
      var (d', b) := AllowIn(d, r.key, r.at);
      assert Same(c', d', r.at);
      StaleWindowsNeverDecide(c', d', requests[1..], r.at);
    }
  }

  /** Purging at any moment changes no later decision. */
  lemma PurgingIsInvisible(c: Counters, requests: seq<Request>, now: Time)
    requires Ordered(requests) && (forall i | 0 <= i < |requests| :: now <= requests[i].at)
    ensures Decisions(Purged(c, now), requests) == Decisions(c, requests)
  {
    StaleWindowsNeverDecide(Purged(c, now), c, requests, now);
  }

  // ---- the bound is tight ------------------------------------------------------------------

  function Burst(key: string, n: nat, at: Time): seq<Request> {
    seq(n, _ => Request(key, at))
  }

  lemma {:induction false} BurstInOpenWindow(c: Counters, key: string, n: nat, at: Time)
    requires key in c && !Stale(c[key], at) && c[key].count + n <= LIMIT
    ensures Admitted(c, Burst(key, n, at), key) == n
    ensures After(c, Burst(key, n, at)) == c[key := Window(c[key].count + n, c[key].start)]
  {
    if n > 0 {
      assert Burst(key, n, at)[1..] == Burst(key, n - 1, at);
      var next := AllowIn(c, key, at).0;
      BurstInOpenWindow(next, key, n - 1, at);
    } else {
      assert c[key := Window(c[key].count, c[key].start)] == c;
    }
  }

  lemma {:induction false} AdmittedInTurn(c: Counters, first: seq<Request>, second: seq<Request>, key: string)
    ensures Admitted(c, first + second, key) == Admitted(c, first, key) + Admitted(After(c, first), second, key)
    decreases |first|
  {
    if first == [] {
      assert first + second == second;
    } else {
      assert (first + second)[1..] == first[1..] + second;
      AdmittedInTurn(AllowIn(c, first[0].key, first[0].at).0, first[1..], second, key);
    }
  }

  /** Nineteen requests do get through within sixty seconds: one opens a window, nine fill it at its last instant, ten more come an instant later. */
  lemma NineteenGetThrough(key: string, at: Time)
    ensures var before := [Request(key, at)];
            var requests := Burst(key, LIMIT - 1, at + WINDOW) + Burst(key, LIMIT, at + WINDOW + 1);
            && Ordered(requests) && Within(requests, at + WINDOW, at + WINDOW + 1)
            && Admitted(After(map[], before), requests, key) == 2 * LIMIT - 1
  {
    var before, filling, next := [Request(key, at)], Burst(key, LIMIT - 1, at + WINDOW), Burst(key, LIMIT, at + WINDOW + 1);
    var once: Counters := map[key := Window(1, at)];
    assert After(map[], before) == once by {
      assert before[1..] == [];
    }
    BurstInOpenWindow(once, key, LIMIT - 1, at + WINDOW);
    AdmittedInTurn(once, filling, next, key);
    var full := After(once, filling);
    assert next[1..] == Burst(key, LIMIT - 1, at + WINDOW + 1);
    BurstInOpenWindow(full[key := Window(1, at + WINDOW + 1)], key, LIMIT - 1, at + WINDOW + 1);
  }
}
