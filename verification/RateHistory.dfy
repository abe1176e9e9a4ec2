/** When a request is allowed, from the clock readings and the earlier decisions alone. */
module RateHistory {
  import opened RateLimit

  const MINUTE: nat := 60 * 1_000_000_000

  /** An allowed request opens a window when no window of its key was opened within the last minute. */
  predicate Opens(limits: Limits, reqs: seq<Request>, i: nat)
    requires i < |reqs|
    decreases i
  {
    && Allowed(limits, reqs, i)
    && forall j | 0 <= j < i && reqs[j].key == reqs[i].key && Opens(limits, reqs, j) ::
         reqs[j].now + MINUTE < reqs[i].now
  }

  /** Request `i` falls into the window that request `o` opened. */
  predicate InWindow(limits: Limits, reqs: seq<Request>, o: nat, i: nat)
    requires o < i < |reqs|
  {
    reqs[o].key == reqs[i].key && Opens(limits, reqs, o) && reqs[i].now <= reqs[o].now + MINUTE
  }

  /** How many requests for the key were allowed from request `o` on and before request `i`. */
  function AllowedFrom(limits: Limits, reqs: seq<Request>, key: string, o: nat, i: nat): nat
    requires o <= i <= |reqs|
    decreases i
  {
    if i == o then 0
    else
      AllowedFrom(limits, reqs, key, o, i - 1) + if reqs[i - 1].key == key && Allowed(limits, reqs, i - 1) then 1 else 0
  }

  // ---- Runs and their prefixes ----

  lemma {:induction false} OrderedTimes(reqs: seq<Request>, i: nat, j: nat)
    requires Ordered(reqs) && i <= j < |reqs|
    ensures 0 < reqs[i].now <= reqs[j].now
    ensures Ordered(reqs[..j]) && LastTime(reqs[..j]) <= reqs[j].now
  {
    var n := |reqs| - 1;
    if j < n {
      OrderedTimes(reqs[..n], i, j);
      assert reqs[..n][..j] == reqs[..j];
    } else if i < j {
      OrderedTimes(reqs[..n], i, j - 1);
    }
  }

  /** The entry of the limiter that never deletes, before request `i`. */
  function EntryBefore(limits: Limits, reqs: seq<Request>, key: string, i: nat): Entry
    requires i <= |reqs|
  {
    Lookup(PlainRun(limits, reqs[..i]), key)
  }

  lemma OneRequest(limits: Limits, reqs: seq<Request>, key: string, i: nat)
    requires Ordered(reqs) && i < |reqs|
    ensures var d := Decide(EntryBefore(limits, reqs, reqs[i].key, i), limits(reqs[i].key), reqs[i].now);
            && Allowed(limits, reqs, i) == d.1
            && EntryBefore(limits, reqs, key, i + 1) ==
                 if reqs[i].key == key then d.0 else EntryBefore(limits, reqs, key, i)
  {
    EvictionInvisible(limits, reqs, i);
    assert reqs[..i + 1][..i] == reqs[..i];
  }

  // ---- The entry is the last window opened ----

  /** The last window for the key opened before request `i` is that of request `o`; there is none if `o` is `i`. */
  predicate LastWindow(limits: Limits, reqs: seq<Request>, key: string, i: nat, o: nat)
    requires o <= i <= |reqs|
  {
    && (o < i ==> reqs[o].key == key && Opens(limits, reqs, o))
    && forall j | 0 <= j < i && reqs[j].key == key && Opens(limits, reqs, j) :: o < i && j <= o
  }

  predicate EntryTold(limits: Limits, reqs: seq<Request>, key: string, i: nat, o: nat)
    requires o <= i <= |reqs|
  {
    var e := EntryBefore(limits, reqs, key, i);
    && LastWindow(limits, reqs, key, i, o)
    && e == if o == i then Entry(0, 0) else Entry(AllowedFrom(limits, reqs, key, o, i), reqs[o].now + MINUTE)
  }

  lemma {:induction false} EntriesAreTold(limits: Limits, reqs: seq<Request>, key: string, i: nat) returns (o: nat)
    requires Ordered(reqs) && i <= |reqs| && limits(key) > 0
    ensures o <= i && EntryTold(limits, reqs, key, i, o)
  {
    if i == 0 {
      o := 0;
    } else {
      var before := EntriesAreTold(limits, reqs, key, i - 1);
      OneRequest(limits, reqs, key, i - 1);
      OrderedTimes(reqs, if before < i - 1 then before else 0, i - 1);
      o := NextWindow(limits, reqs, key, i - 1, before);
    }
  }

  lemma OtherKeyLast(limits: Limits, reqs: seq<Request>, key: string, i: nat, before: nat)
    requires before <= i < |reqs| && LastWindow(limits, reqs, key, i, before) && reqs[i].key != key
    ensures LastWindow(limits, reqs, key, i + 1, if before == i then i + 1 else before)
  {
    var o := if before == i then i + 1 else before;
    forall j | 0 <= j < i + 1 && reqs[j].key == key && Opens(limits, reqs, j) ensures o < i + 1 && j <= o {
      assert j < i;
    }
  }

  lemma OtherKeyWindow(limits: Limits, reqs: seq<Request>, key: string, i: nat, before: nat)
    requires Ordered(reqs) && before <= i < |reqs| && EntryTold(limits, reqs, key, i, before) && reqs[i].key != key
    ensures EntryTold(limits, reqs, key, i + 1, if before == i then i + 1 else before)
  {
    OneRequest(limits, reqs, key, i);
    OtherKeyLast(limits, reqs, key, i, before);
    if before < i {
      assert AllowedFrom(limits, reqs, key, before, i + 1) == AllowedFrom(limits, reqs, key, before, i);
    }
  }

  lemma NewWindow(limits: Limits, reqs: seq<Request>, key: string, i: nat, before: nat)
    requires Ordered(reqs) && before <= i < |reqs| && EntryTold(limits, reqs, key, i, before) && limits(key) > 0
    requires reqs[i].key == key && EntryBefore(limits, reqs, key, i).reset < reqs[i].now
    ensures EntryTold(limits, reqs, key, i + 1, i)
  {
    OneRequest(limits, reqs, key, i);
    OpensAfter(limits, reqs, key, i, before);
    assert AllowedFrom(limits, reqs, key, i, i) == 0;
  }

  lemma SameWindow(limits: Limits, reqs: seq<Request>, key: string, i: nat, before: nat)
    requires Ordered(reqs) && before < i < |reqs| && EntryTold(limits, reqs, key, i, before)
    requires reqs[i].key == key && EntryBefore(limits, reqs, key, i).reset >= reqs[i].now
    ensures EntryTold(limits, reqs, key, i + 1, before)
  {
    OneRequest(limits, reqs, key, i);
    assert !Opens(limits, reqs, i);
  }

  lemma NextWindow(limits: Limits, reqs: seq<Request>, key: string, i: nat, before: nat) returns (o: nat)
    requires Ordered(reqs) && before <= i < |reqs| && limits(key) > 0 && EntryTold(limits, reqs, key, i, before)
    ensures o <= i + 1 && EntryTold(limits, reqs, key, i + 1, o)
  {
    OrderedTimes(reqs, i, i);
    if reqs[i].key != key {
      OtherKeyWindow(limits, reqs, key, i, before);
      o := if before == i then i + 1 else before;
    } else if EntryBefore(limits, reqs, key, i).reset < reqs[i].now {
      NewWindow(limits, reqs, key, i, before);
      o := i;
    } else {
      SameWindow(limits, reqs, key, i, before);
      o := before;
    }
  }

  lemma OpensAfter(limits: Limits, reqs: seq<Request>, key: string, i: nat, before: nat)
    requires Ordered(reqs) && before <= i < |reqs| && LastWindow(limits, reqs, key, i, before)
    requires reqs[i].key == key && Allowed(limits, reqs, i) && (before < i ==> reqs[before].now + MINUTE < reqs[i].now)
    ensures Opens(limits, reqs, i)
  {
    forall j | 0 <= j < i && reqs[j].key == key && Opens(limits, reqs, j) ensures reqs[j].now + MINUTE < reqs[i].now {
      OrderedTimes(reqs, j, before);
    }
  }

  /** A request is allowed exactly when fewer requests of its key than the limit have been allowed since the one that
      opened the window it falls into; outside any window, when the limit is not zero. */
  lemma {:induction false} AllowedIff(limits: Limits, reqs: seq<Request>, i: nat)
    requires Ordered(reqs) && i < |reqs|
    ensures Allowed(limits, reqs, i) <==>
              && limits(reqs[i].key) > 0
              && forall o | 0 <= o < i && InWindow(limits, reqs, o, i) ::
                   AllowedFrom(limits, reqs, reqs[i].key, o, i) < limits(reqs[i].key)
  {
    var key := reqs[i].key;
    OneRequest(limits, reqs, key, i);
    OrderedTimes(reqs, i, i);
    if limits(key) > 0 {
      var last := EntriesAreTold(limits, reqs, key, i);
      forall o | 0 <= o < i && InWindow(limits, reqs, o, i) ensures o == last { OrderedTimes(reqs, last, i); }
      if last < i && reqs[i].now <= reqs[last].now + MINUTE { assert InWindow(limits, reqs, last, i); }
    }
  }

  // ---- A rejected request leaves no trace ----

  function Without(reqs: seq<Request>, r: nat): seq<Request>
    requires r < |reqs|
  {
    reqs[..r] + reqs[r + 1..]
  }

  lemma {:induction false} WithoutOrdered(reqs: seq<Request>, r: nat)
    requires Ordered(reqs) && r < |reqs|
    ensures Ordered(Without(reqs, r))
  {
    var n, fewer := |reqs| - 1, Without(reqs, r);
    if r < n {
      WithoutOrdered(reqs[..n], r);
      assert fewer[..n - 1] == Without(reqs[..n], r);
      if n > 1 { OrderedTimes(reqs, if r == n - 1 then n - 2 else n - 1, n); } else { OrderedTimes(reqs, n, n); }
    } else {
      assert fewer == reqs[..n];
    }
  }

  lemma RejectedKeeps(limits: Limits, reqs: seq<Request>, r: nat, key: string)
    requires Ordered(reqs) && r < |reqs| && !Allowed(limits, reqs, r) && limits(key) > 0
    ensures EntryBefore(limits, reqs, key, r + 1) == EntryBefore(limits, reqs, key, r)
  {
    OneRequest(limits, reqs, key, r);
  }

  lemma SameDecision(limits: Limits, a: seq<Request>, i: nat, b: seq<Request>, j: nat, key: string)
    requires Ordered(a) && Ordered(b) && i < |a| && j < |b| && a[i] == b[j]
    requires EntryBefore(limits, a, key, i) == EntryBefore(limits, b, key, j)
    ensures EntryBefore(limits, a, key, i + 1) == EntryBefore(limits, b, key, j + 1)
    ensures a[i].key == key ==> Allowed(limits, a, i) == Allowed(limits, b, j)
  {
    OneRequest(limits, a, key, i);
    OneRequest(limits, b, key, j);
  }

  lemma {:induction false} SameEntries(limits: Limits, reqs: seq<Request>, r: nat, i: nat, key: string)
    requires Ordered(reqs) && r < i <= |reqs| && !Allowed(limits, reqs, r) && limits(key) > 0
    ensures EntryBefore(limits, Without(reqs, r), key, i - 1) == EntryBefore(limits, reqs, key, i)
  {
    if i == r + 1 {
      RejectedKeeps(limits, reqs, r, key);
      assert Without(reqs, r)[..r] == reqs[..r];
    } else {
      WithoutOrdered(reqs, r);
      SameEntries(limits, reqs, r, i - 1, key);
      SameDecision(limits, Without(reqs, r), i - 2, reqs, i - 1, key);
    }
  }

  /** Leaving out a rejected request changes no later decision. */
  lemma {:induction false} RejectionLeavesNoTrace(limits: Limits, reqs: seq<Request>, r: nat, i: nat)
    requires Ordered(reqs) && r < i < |reqs| && !Allowed(limits, reqs, r)
    ensures Ordered(Without(reqs, r)) && Allowed(limits, Without(reqs, r), i - 1) == Allowed(limits, reqs, i)
  {
    var fewer, key := Without(reqs, r), reqs[i].key;
    WithoutOrdered(reqs, r);
    assert fewer[i - 1] == reqs[i];
    if limits(key) > 0 {
      SameEntries(limits, reqs, r, i, key);
      SameDecision(limits, fewer, i - 1, reqs, i, key);
    } else {
      OneRequest(limits, reqs, key, i);
      OneRequest(limits, fewer, key, i - 1);
    }
  }
}
