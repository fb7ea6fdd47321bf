/** The rate limiter: a fixed-window counter per key, with time as a parameter of every call. */
module Limiter {

  datatype Window = Window(start: int, n: int)

  type Hits = map<string, Window>

  /** The limit and the length of a window. */
  datatype Config = Config(max: int, window: int)

  predicate Live(c: Config, h: Hits, key: string, now: int) {
    key in h && now - h[key].start < c.window
  }

  function Current(c: Config, h: Hits, key: string, now: int): Window {
    if Live(c, h, key, now) then h[key] else Window(now, 0)
  }

  function Allowed(c: Config, h: Hits, key: string, now: int): (Hits, bool) {
    var w := Current(c, h, key, now);
    (h[key := Window(w.start, w.n + 1)], w.n + 1 <= c.max)
  }

  function Swept(c: Config, h: Hits, now: int): Hits {
    map k | k in h && Live(c, h, k, now) :: h[k]
  }

  class Limiter {
    const max: int
    const window: int
    var hits: Hits

    constructor (max: int, per: int)
      ensures this.max == max && window == per && hits == map[]
    {
      this.max, window, hits := max, per, map[];
    }

    /** One attempt: counted in the key's live window, or in a new one. */
    method Allow(key: string, now: int) returns (ok: bool)
      modifies this
      ensures (hits, ok) == Allowed(Config(max, window), old(hits), key, now)
    {
      var w := Window(now, 0);
      if key in hits && now - hits[key].start < window {
        w := hits[key];
      }
      w := w.(n := w.n + 1);
      hits := hits[key := w];
      ok := w.n <= max;
    }

    method Reset(key: string)
      modifies this
      ensures hits == old(hits) - {key}
    {
      hits := hits - {key};
    }

    /** Forgets the windows that are over, whatever the order they are looked at in. */
    method Sweep(now: int)
      modifies this
      ensures hits == Swept(Config(max, window), old(hits), now)
    {
      var keys, was := hits.Keys, hits;
      while keys != {}
        invariant keys <= was.Keys
        invariant forall k :: k in hits <==> k in was && (k in keys || Live(Config(max, window), was, k, now))
        invariant forall k :: k in hits ==> hits[k] == was[k]
        decreases |keys|
      {
        var k :| k in keys;
        if now - hits[k].start >= window {
          hits := hits - {k};
        }
        keys := keys - {k};
      }
    }
  }

  // ---------- Runs ----------

  datatype Op = Allow(key: string, now: int) | Sweep(now: int) | Reset(key: string)

  function After(c: Config, h: Hits, op: Op): Hits {
    match op
    case Allow(key, now) => Allowed(c, h, key, now).0
    case Sweep(now) => Swept(c, h, now)
    case Reset(key) => h - {key}
  }

  function Time(op: Op, now: int): int { if op.Reset? then now else op.now }

  /** The clock, `now` at the start, never goes back. */
  predicate Monotone(ops: seq<Op>, now: int)
    decreases |ops|
  {
    ops == [] || (Time(ops[0], now) >= now && Monotone(ops[1..], Time(ops[0], now)))
  }

  /** How many attempts for a key are allowed from `lo` to `hi`. */
  function Count(c: Config, h: Hits, ops: seq<Op>, key: string, lo: int, hi: int): nat
    decreases |ops|
  {
    if ops == [] then 0
    else
      var op := ops[0];
      (if op.Allow? && op.key == key && lo <= op.now <= hi && Allowed(c, h, key, op.now).1 then 1 else 0)
      + Count(c, After(c, h, op), ops[1..], key, lo, hi)
  }

  predicate NeverReset(ops: seq<Op>, key: string) { Reset(key) !in ops }

  /** A key's window holds at least one attempt and started no later than now. */
  predicate Sound(h: Hits, key: string, now: int) {
    key in h ==> h[key].n >= 1 && h[key].start <= now
  }

  function Left(c: Config, w: Window): nat { if w.n < c.max then c.max - w.n else 0 }

  function Bound(c: Config, len: nat): nat
    requires c.max >= 1
  {
    if len < c.window then 2 * c.max - 1 else 2 * c.max
  }

  /** How many more attempts can be allowed up to `lo + len`, from a state of the key's window at `now`. */
  function Room(c: Config, h: Hits, key: string, now: int, lo: int, len: nat): nat
    requires c.max >= 1
  {
    if now > lo + len then 0
    else if now < lo then Bound(c, len)
    else if Live(c, h, key, now) then Left(c, h[key]) + (if h[key].start + c.window <= lo + len then c.max else 0)
    else if now + c.window <= lo + len then 2 * c.max
    else c.max
  }

  lemma RoomStep(c: Config, h: Hits, op: Op, key: string, now: int, lo: int, len: nat)
    requires c.max >= 1 && 0 < c.window && len <= c.window && op != Reset(key)
    requires Time(op, now) >= now && Sound(h, key, now)
    ensures Sound(After(c, h, op), key, Time(op, now))
    ensures (if op.Allow? && op.key == key && lo <= op.now <= lo + len && Allowed(c, h, key, op.now).1 then 1 else 0)
          + Room(c, After(c, h, op), key, Time(op, now), lo, len)
         <= Room(c, h, key, now, lo, len)
  {
  }

  lemma {:induction false} CountInRoom(c: Config, h: Hits, ops: seq<Op>, key: string, now: int, lo: int, len: nat)
    requires c.max >= 1 && 0 < c.window && len <= c.window
    requires Monotone(ops, now) && NeverReset(ops, key) && Sound(h, key, now)
    ensures Count(c, h, ops, key, lo, lo + len) <= Room(c, h, key, now, lo, len)
    decreases |ops|
  {
    if ops != [] {
      hide Room, Sound;
      RoomStep(c, h, ops[0], key, now, lo, len);
      CountInRoom(c, After(c, h, ops[0]), ops[1..], key, Time(ops[0], now), lo, len);
    }
  }

  lemma {:induction false} NoneAllowed(c: Config, h: Hits, ops: seq<Op>, key: string, now: int, lo: int, hi: int)
    requires c.max <= 0 && Monotone(ops, now) && Sound(h, key, now) && NeverReset(ops, key)
    ensures Count(c, h, ops, key, lo, hi) == 0
    decreases |ops|
  {
    if ops != [] { NoneAllowed(c, After(c, h, ops[0]), ops[1..], key, Time(ops[0], now), lo, hi); }
  }

  /**
   * Over every run with a clock that never goes back, for a key never reset: any interval as long as the
   * window, both ends included, has at most twice the limit of allowed attempts; one end excluded, one fewer.
   */
  lemma AtMostTwiceTheLimit(c: Config, ops: seq<Op>, key: string, start: int, lo: int)
    requires 0 < c.window && Monotone(ops, start) && NeverReset(ops, key)
    ensures c.max <= 0 ==> Count(c, map[], ops, key, lo, lo + c.window) == 0
    ensures c.max > 0 ==> Count(c, map[], ops, key, lo, lo + c.window) <= 2 * c.max
    ensures c.max > 0 ==> Count(c, map[], ops, key, lo, lo + c.window - 1) <= 2 * c.max - 1
  {
    if c.max <= 0 {
      NoneAllowed(c, map[], ops, key, start, lo, lo + c.window);
    } else {
      CountInRoom(c, map[], ops, key, start, lo, c.window);
      CountInRoom(c, map[], ops, key, start, lo, c.window - 1);
    }
  }

  // The bound is reached.

  function Repeat(key: string, now: int, n: nat): seq<Op> {
    if n == 0 then [] else [Allow(key, now)] + Repeat(key, now, n - 1)
  }

  lemma {:induction false} RepeatCount(c: Config, h: Hits, key: string, now: int, n: nat, rest: seq<Op>, lo: int, hi: int)
    requires 0 < c.window && lo <= now <= hi && Current(c, h, key, now) == Window(now, c.max - n)
    ensures exists t: Hits :: (n > 0 ==> t == h[key := Window(now, c.max)]) && (n == 0 ==> t == h)
              && Count(c, h, Repeat(key, now, n) + rest, key, lo, hi) == n + Count(c, t, rest, key, lo, hi)
    decreases n
  {
    var ops := Repeat(key, now, n) + rest;
    if n == 0 {
      assert ops == rest;
    } else {
      assert ops[1..] == Repeat(key, now, n - 1) + rest;
      var t := After(c, h, ops[0]);
      RepeatCount(c, t, key, now, n - 1, rest, lo, hi);
      assert t[key := Window(now, c.max)] == h[key := Window(now, c.max)];
    }
  }

  lemma TwiceTheLimitIsReached(c: Config, key: string)
    requires 0 < c.window && 0 < c.max
    ensures Count(c, map[], Repeat(key, 0, c.max) + Repeat(key, c.window, c.max), key, 0, c.window) == 2 * c.max
  {
    RepeatCount(c, map[], key, 0, c.max, Repeat(key, c.window, c.max), 0, c.window);
    var h: Hits := map[key := Window(0, c.max)];
    assert map[][key := Window(0, c.max)] == h;
    assert Repeat(key, c.window, c.max) + [] == Repeat(key, c.window, c.max);
    RepeatCount(c, h, key, c.window, c.max, [], 0, c.window);
  }

  // ---------- Sweeping ----------

  /** The answers to the attempts of a run. */
  function Answers(c: Config, h: Hits, ops: seq<Op>): seq<bool>
    decreases |ops|
  {
    if ops == [] then []
    else (if ops[0].Allow? then [Allowed(c, h, ops[0].key, ops[0].now).1] else []) + Answers(c, After(c, h, ops[0]), ops[1..])
  }

  function WithoutSweeps(ops: seq<Op>): seq<Op> {
    if ops == [] then [] else (if ops[0].Sweep? then [] else [ops[0]]) + WithoutSweeps(ops[1..])
  }

  /** The two agree on every window that has not expired. */
  ghost predicate Agree(c: Config, h: Hits, g: Hits, now: int) {
    forall k: string :: Live(c, h, k, now) || Live(c, g, k, now) ==> k in h && k in g && h[k] == g[k]
  }

  lemma AgreeAfter(c: Config, h: Hits, g: Hits, op: Op, now: int)
    requires Agree(c, h, g, now) && Time(op, now) >= now && 0 < c.window
    ensures op.Sweep? ==> Agree(c, After(c, h, op), g, Time(op, now))
    ensures Agree(c, After(c, h, op), After(c, g, op), Time(op, now))
    ensures op.Allow? ==> Allowed(c, h, op.key, op.now).1 == Allowed(c, g, op.key, op.now).1
  {
    assert Agree(c, h, g, Time(op, now)) by {
      forall k: string | Live(c, h, k, Time(op, now)) || Live(c, g, k, Time(op, now))
        ensures k in h && k in g && h[k] == g[k]
      {
        assert Live(c, h, k, now) || Live(c, g, k, now);
      }
    }
    if op.Allow? { assert Current(c, h, op.key, op.now) == Current(c, g, op.key, op.now); }
  }

  lemma {:induction false} SweepsAgree(c: Config, h: Hits, g: Hits, ops: seq<Op>, now: int)
    requires 0 < c.window && Monotone(ops, now) && Agree(c, h, g, now)
    ensures Answers(c, h, ops) == Answers(c, g, WithoutSweeps(ops))
    decreases |ops|
  {
    if ops != [] {
      var op := ops[0];
      AgreeAfter(c, h, g, op, now);
      hide Agree, After, Allowed;
      if op.Sweep? {
        SweepsAgree(c, After(c, h, op), g, ops[1..], op.now);
        assert [] + WithoutSweeps(ops[1..]) == WithoutSweeps(ops[1..]);
      } else {
        SweepsAgree(c, After(c, h, op), After(c, g, op), ops[1..], Time(op, now));
        assert WithoutSweeps(ops)[1..] == WithoutSweeps(ops[1..]);
      }
    }
  }

  /** Sweeping, at whatever moments, changes no answer. */
  lemma SweepingChangesNoAnswer(c: Config, ops: seq<Op>, start: int)
    requires 0 < c.window && Monotone(ops, start)
    ensures Answers(c, map[], ops) == Answers(c, map[], WithoutSweeps(ops))
  {
    SweepsAgree(c, map[], map[], ops, start);
  }

  // ---------- What decides an answer ----------

  /** The times of a key's attempts since it was last reset. */
  function Attempts(ts: seq<int>, ops: seq<Op>, key: string): seq<int>
    decreases |ops|
  {
    if ops == [] then ts else Attempts(Attempted(ts, ops[0], key), ops[1..], key)
  }

  function Attempted(ts: seq<int>, op: Op, key: string): seq<int> {
    if op == Reset(key) then [] else if op.Allow? && op.key == key then ts + [op.now] else ts
  }

  function StateAfter(c: Config, h: Hits, ops: seq<Op>): Hits
    decreases |ops|
  {
    if ops == [] then h else StateAfter(c, After(c, h, ops[0]), ops[1..])
  }

  function EndTime(ops: seq<Op>, now: int): int
    decreases |ops|
  {
    if ops == [] then now else EndTime(ops[1..], Time(ops[0], now))
  }

  /** The attempt that opened the last one's window: the first, and then each one a whole window after the one that opened before. */
  function Opening(ts: seq<int>, window: int): (o: nat)
    requires ts != []
    ensures o < |ts|
  {
    if |ts| == 1 then 0
    else
      var o := Opening(ts[..|ts| - 1], window);
      if ts[|ts| - 1] - ts[o] >= window then |ts| - 1 else o
  }

  /** What is kept of a key, after these attempts. */
  predicate WindowIs(c: Config, h: Hits, key: string, ts: seq<int>, now: int) {
    if ts == [] then key !in h
    else
      var o := Opening(ts, c.window);
      && (key in h ==> h[key] == Window(ts[o], |ts| - o))
      && (key !in h ==> now - ts[o] >= c.window)
  }

  lemma WindowStep(c: Config, h: Hits, key: string, ts: seq<int>, now: int, op: Op)
    requires WindowIs(c, h, key, ts, now) && Time(op, now) >= now
    ensures WindowIs(c, After(c, h, op), key, Attempted(ts, op, key), Time(op, now))
  {
    if op.Allow? && op.key == key { assert (ts + [op.now])[..|ts|] == ts; }
  }

  lemma {:induction false} WindowKept(c: Config, h: Hits, key: string, ts: seq<int>, now: int, ops: seq<Op>)
    requires WindowIs(c, h, key, ts, now) && Monotone(ops, now)
    ensures WindowIs(c, StateAfter(c, h, ops), key, Attempts(ts, ops, key), EndTime(ops, now))
    decreases |ops|
  {
    if ops != [] {
      WindowStep(c, h, key, ts, now, ops[0]);
      hide WindowIs, After, Time, Attempted;
      WindowKept(c, After(c, h, ops[0]), key, Attempted(ts, ops[0], key), Time(ops[0], now), ops[1..]);
    }
  }

  /**
   * After any run, whatever was asked for other keys and swept in between: an attempt is allowed exactly if it is
   * among the first `max` of its window, refused ones counted like all others.
   */
  lemma AllowedIffAmongFirst(c: Config, ops: seq<Op>, key: string, start: int, at: int)
    requires Monotone(ops, start) && at >= EndTime(ops, start)
    ensures var ts := Attempts([], ops, key) + [at];
            Allowed(c, StateAfter(c, map[], ops), key, at).1 <==> |ts| - Opening(ts, c.window) <= c.max
  {
    WindowKept(c, map[], key, [], start, ops);
    var before := Attempts([], ops, key);
    assert (before + [at])[..|before|] == before;
    hide StateAfter, Attempts;
  }
}
