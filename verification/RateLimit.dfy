/** The fixed-window rate limiter and its eviction of expired entries. Instants are nanoseconds; the zero
    instant precedes every clock reading. */
module RateLimit {

  const WINDOW: nat := 60_000_000_000
  const CAPACITY: nat := 10_000

  datatype Entry = Entry(count: nat, reset: nat)

  type Entries = map<string, Entry>

  function Lookup(entries: Entries, key: string): Entry {
    if key in entries then entries[key] else Entry(0, 0)
  }

  /** One request against one entry: an expired window restarts, a full one rejects. */
  function Decide(e: Entry, limit: nat, now: nat): (Entry, bool) {
    var w := if e.reset < now then Entry(0, now + WINDOW) else e;
    if w.count >= limit then (w, false) else (Entry(w.count + 1, w.reset), true)
  }

  function Evict(entries: Entries, now: nat): Entries {
    map key | key in entries && entries[key].reset >= now :: entries[key]
  }

  function Step(entries: Entries, key: string, limit: nat, now: nat): (Entries, bool) {
    var kept := if |entries| >= CAPACITY then Evict(entries, now) else entries;
    var d := Decide(Lookup(entries, key), limit, now);
    (kept[key := d.0], d.1)
  }

  /** The limiter that never deletes an entry. */
  function PlainStep(entries: Entries, key: string, limit: nat, now: nat): (Entries, bool) {
    var d := Decide(Lookup(entries, key), limit, now);
    (entries[key := d.0], d.1)
  }

  class RateLimiter {
    var entries: Entries

    constructor ()
      ensures entries == map[]
    {
      entries := map[];
    }

    method Allow(key: string, limit: nat, now: nat) returns (ok: bool)
      modifies this
      ensures (entries, ok) == Step(old(entries), key, limit, now)
    {
      var e := if key in entries then entries[key] else Entry(0, 0);
      if |entries| >= CAPACITY {
        var todo := entries.Keys;
        while todo != {}
          invariant todo <= entries.Keys
          invariant entries ==
                      map k | k in old(entries) && (k in todo || old(entries)[k].reset >= now) :: old(entries)[k]
          decreases todo
        {
          var k :| k in todo;
          if entries[k].reset < now {
            entries := entries - {k};
          }
          todo := todo - {k};
        }
        assert entries == Evict(old(entries), now);
      }
      if e.reset < now {
        e := Entry(0, now + WINDOW);
      }
      if e.count >= limit {
        entries := entries[key := e];
        return false;
      }
      e := Entry(e.count + 1, e.reset);
      entries := entries[key := e];
      return true;
    }
  }

  // ---- Runs ----

  datatype Request = Request(key: string, now: nat)

  /** The limit is fixed by the key, which contains the path. */
  type Limits = string -> nat

  function Run(limits: Limits, reqs: seq<Request>): Entries {
    if reqs == [] then map[]
    else
      var r := reqs[|reqs| - 1];
      Step(Run(limits, reqs[..|reqs| - 1]), r.key, limits(r.key), r.now).0
  }

  function Allowed(limits: Limits, reqs: seq<Request>, i: nat): bool
    requires i < |reqs|
  {
    Step(Run(limits, reqs[..i]), reqs[i].key, limits(reqs[i].key), reqs[i].now).1
  }

  function PlainRun(limits: Limits, reqs: seq<Request>): Entries {
    if reqs == [] then map[]
    else
      var r := reqs[|reqs| - 1];
      PlainStep(PlainRun(limits, reqs[..|reqs| - 1]), r.key, limits(r.key), r.now).0
  }

  function PlainAllowed(limits: Limits, reqs: seq<Request>, i: nat): bool
    requires i < |reqs|
  {
    PlainStep(PlainRun(limits, reqs[..i]), reqs[i].key, limits(reqs[i].key), reqs[i].now).1
  }

  function LastTime(reqs: seq<Request>): nat {
    if reqs == [] then 0 else reqs[|reqs| - 1].now
  }

  /** Clock readings are positive and never decrease. */
  predicate Ordered(reqs: seq<Request>) {
    reqs == [] || (Ordered(reqs[..|reqs| - 1]) && LastTime(reqs[..|reqs| - 1]) <= LastTime(reqs) && LastTime(reqs) > 0)
  }

  // ---- Eviction is invisible ----

  /** `entries` is `plain` without some entries that had expired by `now`. */
  ghost predicate Thinned(entries: Entries, plain: Entries, now: nat) {
    && (forall key | key in entries :: key in plain && plain[key] == entries[key])
    && (forall key | key in plain && key !in entries :: plain[key].reset < now)
  }

  lemma StepsAgree(entries: Entries, plain: Entries, last: nat, key: string, limit: nat, now: nat)
    requires Thinned(entries, plain, last) && last <= now && now > 0
    ensures var s, p := Step(entries, key, limit, now), PlainStep(plain, key, limit, now);
            s.1 == p.1 && Thinned(s.0, p.0, now)
  {
  }

  lemma {:induction false} RunsAgree(limits: Limits, reqs: seq<Request>)
    requires Ordered(reqs)
    ensures Thinned(Run(limits, reqs), PlainRun(limits, reqs), LastTime(reqs))
  {
    if reqs != [] {
      var init, r := reqs[..|reqs| - 1], reqs[|reqs| - 1];
      RunsAgree(limits, init);
      StepsAgree(Run(limits, init), PlainRun(limits, init), LastTime(init), r.key, limits(r.key), r.now);
    }
  }

  /** Every decision is that of the limiter that never deletes. */
  lemma {:induction false} EvictionInvisible(limits: Limits, reqs: seq<Request>, i: nat)
    requires Ordered(reqs) && i < |reqs|
    ensures Allowed(limits, reqs, i) == PlainAllowed(limits, reqs, i)
    decreases |reqs|
  {
    var init, r := reqs[..|reqs| - 1], reqs[|reqs| - 1];
    if i < |init| {
      EvictionInvisible(limits, init, i);
      assert init[..i] == reqs[..i];
    } else {
      RunsAgree(limits, init);
      StepsAgree(Run(limits, init), PlainRun(limits, init), LastTime(init), r.key, limits(r.key), r.now);
    }
  }

  function Unexpired(entries: Entries, now: nat): set<string> {
    set key | key in entries && entries[key].reset >= now
  }

  /** After every call the table holds at most 10000 entries or only entries that have not expired. */
  lemma SizeBound(limits: Limits, reqs: seq<Request>)
    requires reqs != []
    ensures var entries := Run(limits, reqs);
            |entries| <= 10_000 || |entries| == |Unexpired(entries, LastTime(reqs))|
  {
    var r := reqs[|reqs| - 1];
    var before, after := Run(limits, reqs[..|reqs| - 1]), Run(limits, reqs);
    if |before| >= CAPACITY {
      assert Unexpired(after, r.now) == after.Keys;
    } else {
      assert after.Keys == before.Keys + {r.key};
    }
  }

  // ---- The rate bound ----

  /** Requests for `key` allowed at instants in the closed interval from `a` to `b`. */
  function Count(limits: Limits, reqs: seq<Request>, key: string, a: nat, b: nat): nat {
    if reqs == [] then 0
    else
      var n, r := |reqs| - 1, reqs[|reqs| - 1];
      Count(limits, reqs[..n], key, a, b) +
      if r.key == key && a <= r.now <= b && Allowed(limits, reqs, n) then 1 else 0
  }

  /** The worst case over `t` nanoseconds: a full window each started minute, and all but the opening request of
      one window opened before the interval unless the starts divide it exactly. */
  function Bound(limit: nat, t: nat): nat
    requires limit > 0
  {
    limit * (1 + t / (WINDOW + 1)) + if t % (WINDOW + 1) == 0 then 0 else limit - 1
  }

  /** What `n` requests allowed since `a` say about the current entry. */
  predicate Spent(limit: nat, e: Entry, n: nat, a: nat) {
    if e.count == 0 || e.reset < a then n == 0
    else
      || n + 1 <= limit * ((e.reset - a) / (WINDOW + 1)) + e.count
      || (e.reset >= a + WINDOW && n <= limit * ((e.reset - a - WINDOW) / (WINDOW + 1)) + e.count)
  }

  predicate EntryOk(limit: nat, e: Entry, last: nat) {
    e == Entry(0, 0) || (1 <= e.count <= limit && WINDOW < e.reset <= last + WINDOW)
  }

  lemma MulMonotone(limit: nat, p: nat, q: nat)
    requires p <= q
    ensures limit * p <= limit * q
  {
  }

  lemma AnotherWindow(limit: nat, x: nat, y: nat)
    requires x + WINDOW + 1 <= y
    ensures limit * (x / (WINDOW + 1)) + limit <= limit * (y / (WINDOW + 1))
  {
    var p, q := x / (WINDOW + 1), y / (WINDOW + 1);
    MulMonotone(limit, p + 1, q);
    assert limit * (p + 1) == limit * p + limit;
  }

  /** A request inside the current window moves the entry and the number together, or neither. */
  lemma SpentKept(limit: nat, e: Entry, n: nat, a: nat, now: nat)
    requires Spent(limit, e, n, a) && 1 <= e.count <= limit && now <= e.reset && (now < a ==> n == 0)
    ensures Spent(limit, e.(count := e.count + 1), if a <= now then n + 1 else n, a)
  {
  }

  /** A request after the current window has closed opens a window that leaves room for all requests so far. */
  lemma SpentRestart(limit: nat, e: Entry, n: nat, a: nat, now: nat)
    requires Spent(limit, e, n, a) && e.count <= limit && e.reset < now && (now < a ==> n == 0)
    ensures Spent(limit, Entry(1, now + WINDOW), if a <= now then n + 1 else n, a)
  {
    if a <= e.reset {
      AnotherWindow(limit, e.reset - a, now + WINDOW - a);
      if e.reset >= a + WINDOW { AnotherWindow(limit, e.reset - a - WINDOW, now - a); }
    }
  }

  lemma SpentStep(limit: nat, e: Entry, n: nat, a: nat, last: nat, now: nat)
    requires limit > 0 && EntryOk(limit, e, last) && last <= now && now > 0
    requires Spent(limit, e, n, a) && (last < a ==> n == 0)
    ensures var d := Decide(e, limit, now);
            EntryOk(limit, d.0, now) && Spent(limit, d.0, if d.1 && a <= now then n + 1 else n, a)
  {
    if e.reset < now { SpentRestart(limit, e, n, a, now); } else { SpentKept(limit, e, n, a, now); }
  }

  lemma SpentBounds(limit: nat, e: Entry, n: nat, a: nat, t: nat)
    requires limit > 0 && EntryOk(limit, e, a + t) && Spent(limit, e, n, a)
    ensures n <= Bound(limit, t)
  {
    var d := WINDOW + 1;
    var q := t / d;
    assert limit * (q + 1) == limit * q + limit;
    if e.count > 0 && a <= e.reset {
      var started := (e.reset - a) / d;
      assert started <= (t + WINDOW) / d == (if t % d == 0 then q else q + 1);
      MulMonotone(limit, started, if t % d == 0 then q else q + 1);
      if e.reset >= a + WINDOW { MulMonotone(limit, (e.reset - a - WINDOW) / d, q); }
    }
  }

  lemma {:induction false} CountSpent(limits: Limits, reqs: seq<Request>, key: string, a: nat, b: nat)
    requires Ordered(reqs) && limits(key) > 0 && a <= b
    ensures Count(limits, reqs, key, a, b) <= Bound(limits(key), b - a)
    ensures LastTime(reqs) < a ==> Count(limits, reqs, key, a, b) == 0
    ensures var e := Lookup(PlainRun(limits, reqs), key);
            && EntryOk(limits(key), e, LastTime(reqs))
            && (LastTime(reqs) <= b ==> Spent(limits(key), e, Count(limits, reqs, key, a, b), a))
  {
    if reqs != [] {
      var k := |reqs| - 1;
      var init, r := reqs[..k], reqs[k];
      var e, n := Lookup(PlainRun(limits, init), key), Count(limits, init, key, a, b);
      CountSpent(limits, init, key, a, b);
      LastRequest(limits, init, r, key, a, b);
      assert init + [r] == reqs;
      if r.key == key && r.now <= b {
        SpentStep(limits(key), e, n, a, LastTime(init), r.now);
        SpentBounds(limits(key), Decide(e, limits(key), r.now).0, Count(limits, reqs, key, a, b), a, b - a);
      }
    }
  }

  /** One more request, seen from one key. */
  lemma LastRequest(limits: Limits, reqs: seq<Request>, r: Request, key: string, a: nat, b: nat)
    requires Ordered(reqs) && LastTime(reqs) <= r.now && r.now > 0
    ensures Ordered(reqs + [r]) && LastTime(reqs + [r]) == r.now
    ensures var e := Lookup(PlainRun(limits, reqs), key);
            var d := Decide(e, limits(key), r.now);
            && Lookup(PlainRun(limits, reqs + [r]), key) == (if r.key == key then d.0 else e)
            && Count(limits, reqs + [r], key, a, b) ==
                 Count(limits, reqs, key, a, b) + (if r.key == key && a <= r.now <= b && d.1 then 1 else 0)
  {
    assert (reqs + [r])[..|reqs|] == reqs;
    EvictionInvisible(limits, reqs + [r], |reqs|);
  }

  /** No closed interval holds more allowed requests for a key than the worst case. */
  lemma RateBound(limits: Limits, reqs: seq<Request>, key: string, a: nat, t: nat)
    requires Ordered(reqs) && limits(key) > 0
    ensures Count(limits, reqs, key, a, a + t) <= Bound(limits(key), t)
  {
    CountSpent(limits, reqs, key, a, a + t);
  }

  /** In whole windows: at most `limit` for each started minute and one more, and in any minute fewer than twice the
      limit. */
  lemma {:induction false} BoundInMinutes(limit: nat, t: nat)
    requires limit > 0
    ensures Bound(limit, t) <= limit * ((t + WINDOW - 1) / WINDOW + 1)
    ensures t == 60 * 1_000_000_000 ==> Bound(limit, t) == 2 * limit - 1
  {
    var q, d := t / (WINDOW + 1), WINDOW + 1;
    var minutes := (t + WINDOW - 1) / WINDOW;
    if t % d == 0 {
      MulMonotone(limit, 1 + q, minutes + 1);
    } else {
      MulMonotone(limit, 2 + q, minutes + 1);
      assert limit * (2 + q) == limit * (1 + q) + limit;
    }
  }

  // ---- The bound is attained ----

  /** `m` more requests at one instant, all allowed as long as the window has room. */
  lemma {:induction false} Burst(limits: Limits, reqs: seq<Request>, key: string, now: nat, m: nat, a: nat, b: nat)
    returns (more: seq<Request>)
    requires Ordered(reqs) && LastTime(reqs) <= now && now > 0
    requires var e := Lookup(PlainRun(limits, reqs), key); (if e.reset < now then 0 else e.count) + m <= limits(key)
    ensures Ordered(more) && LastTime(more) <= now
    ensures Count(limits, more, key, a, b) == Count(limits, reqs, key, a, b) + if a <= now <= b then m else 0
    ensures var e := Lookup(PlainRun(limits, reqs), key);
            Lookup(PlainRun(limits, more), key) ==
              if m == 0 then e else if e.reset < now then Entry(m, now + WINDOW) else Entry(e.count + m, e.reset)
  {
    more := reqs;
    if m > 0 {
      var init := Burst(limits, reqs, key, now, m - 1, a, b);
      LastRequest(limits, init, Request(key, now), key, a, b);
      more := init + [Request(key, now)];
    }
  }

  /** `n` full windows, each opened as soon as the one before has closed. */
  lemma {:induction false} Waves(limits: Limits, reqs: seq<Request>, key: string, start: nat, n: nat, a: nat, b: nat)
    returns (more: seq<Request>)
    requires Ordered(reqs) && LastTime(reqs) <= start && start > 0 && limits(key) > 0
    requires Lookup(PlainRun(limits, reqs), key).reset < start
    requires a <= start && (n > 0 ==> start + (n - 1) * (WINDOW + 1) <= b)
    ensures Ordered(more) && LastTime(more) <= start + n * (WINDOW + 1)
    ensures Lookup(PlainRun(limits, more), key).reset < start + n * (WINDOW + 1)
    ensures Count(limits, more, key, a, b) == Count(limits, reqs, key, a, b) + n * limits(key)
  {
    more := reqs;
    if n > 0 {
      var at := start + (n - 1) * (WINDOW + 1);
      var init := Waves(limits, reqs, key, start, n - 1, a, b);
      more := Burst(limits, init, key, at, limits(key), a, b);
      assert (n - 1) * limits(key) + limits(key) == n * limits(key);
    }
  }

  /** A window opened before the interval that admits its remaining requests at the very start of it. */
  lemma Early(limits: Limits, key: string, a: nat, b: nat) returns (reqs: seq<Request>)
    requires limits(key) > 0 && a == WINDOW + 1 <= b
    ensures Ordered(reqs) && LastTime(reqs) <= a && Lookup(PlainRun(limits, reqs), key).reset <= a
    ensures Count(limits, reqs, key, a, b) == limits(key) - 1
  {
    var first := Burst(limits, [], key, 1, 1, a, b);
    reqs := Burst(limits, first, key, a, limits(key) - 1, a, b);
  }

  /** For every limit and every length there is a run and an interval that reach the worst case. */
  lemma BoundAttained(limits: Limits, key: string, t: nat) returns (reqs: seq<Request>, a: nat)
    requires limits(key) > 0
    ensures Ordered(reqs) && Count(limits, reqs, key, a, a + t) == Bound(limits(key), t)
  {
    var limit, q := limits(key), t / (WINDOW + 1);
    a := WINDOW + 1;
    if t % (WINDOW + 1) == 0 {
      reqs := Waves(limits, [], key, a, q + 1, a, a + t);
    } else {
      var early := Early(limits, key, a, a + t);
      reqs := Waves(limits, early, key, a + 1, q + 1, a, a + t);
    }
    assert (q + 1) * limit == limit * (1 + q);
  }
}
