/** In which order the publisher delivers: exactly when the de-duplicated log is a prefix of the outbox. The rows
    stand in created_at order, the start of the inserting transaction, while they appear when it commits. */
module OutboxOrder {
  import opened Domain
  import opened Tables
  import opened Records
  import opened Outbox

  /** What has been delivered or is about to be: a row that commits in front of it is overtaken. */
  function Frontier(p: Protocol): nat {
    var n := |Delivered(p.log)|;
    if p.at.Sending? && p.done + |p.at.batch| > n then p.done + |p.at.batch| else n
  }

  /** Every row commits at the frontier or behind it; in created_at order, say, where it commits behind all others. */
  predicate InOrder(limit: nat, steps: seq<Step>) {
    steps == [] ||
    var init, s := steps[..|steps| - 1], steps[|steps| - 1];
    InOrder(limit, init) && (s.Insert? && Inserts(Run(limit, init), s.k, s.row) ==> Frontier(Run(limit, init)) <= s.k)
  }

  ghost predicate BatchInOrder(limit: nat, p: Protocol) {
    p.at.Sending? ==>
      && |p.at.batch| <= limit && p.done + |p.at.batch| <= |p.rows|
      && p.at.batch == p.rows[p.done..p.done + |p.at.batch|]
      && p.at.sent <= |p.at.batch| && p.done + p.at.sent <= |Delivered(p.log)|
  }

  /** The delivered messages are a prefix of the committed rows that covers the marked ones and at most `limit` more. */
  ghost predicate Ordered(limit: nat, p: Protocol) {
    && (forall i | 0 <= i < |p.rows| :: p.rows[i].published <==> i < p.done)
    && p.done <= |Delivered(p.log)| <= p.done + limit && |Delivered(p.log)| <= |p.rows|
    && Delivered(p.log) == Messages(p.rows[..|Delivered(p.log)|])
    && BatchInOrder(limit, p)
  }

  lemma {:induction false} PendingSuffix(rows: seq<OutboxRow>, done: nat)
    requires done <= |rows| && forall i | 0 <= i < |rows| :: rows[i].published <==> i < done
    ensures Pending(rows) == rows[done..]
  {
    if rows != [] {
      PendingSuffix(rows[1..], if done > 0 then done - 1 else 0);
      assert done == 0 ==> rows == [rows[0]] + rows[1..][0..];
    }
  }

  lemma RepeatedPublish(rows: seq<OutboxRow>, log: seq<Message>, i: nat, copies: nat)
    requires i < |Delivered(log)| <= |rows| && Delivered(log) == Messages(rows[..|Delivered(log)|])
    ensures Delivered(log + Copies(MessageOf(rows[i]), copies)) == Delivered(log)
  {
    DeliveredCopies(log, MessageOf(rows[i]), copies);
    assert Delivered(log)[i] == MessageOf(rows[i]);
  }

  lemma NotSeen(rows: seq<OutboxRow>, n: nat)
    requires UniqueIds(rows) && n < |rows|
    ensures !Seen(Messages(rows[..n]), rows[n].id)
  {
  }

  lemma MessagesSnoc(rows: seq<OutboxRow>, n: nat)
    requires n < |rows|
    ensures Messages(rows[..n + 1]) == Messages(rows[..n]) + [MessageOf(rows[n])]
  {
  }

  lemma FirstPublish(rows: seq<OutboxRow>, log: seq<Message>, copies: nat)
    requires var n := |Delivered(log)|; UniqueIds(rows) && n < |rows| && Delivered(log) == Messages(rows[..n])
    requires copies > 0
    ensures Delivered(log + Copies(MessageOf(rows[|Delivered(log)|]), copies)) == Messages(rows[..|Delivered(log)| + 1])
  {
    var n := |Delivered(log)|;
    NotSeen(rows, n);
    MessagesSnoc(rows, n);
    DeliveredCopies(log, MessageOf(rows[n]), copies);
  }

  /** The row about to be published is already delivered or the next one to be. */
  lemma PublishNext(rows: seq<OutboxRow>, log: seq<Message>, i: nat, copies: nat)
    requires UniqueIds(rows) && |Delivered(log)| <= |rows| && i <= |Delivered(log)| && i < |rows|
    requires Delivered(log) == Messages(rows[..|Delivered(log)|])
    ensures var n, d := |Delivered(log)|, Delivered(log + Copies(MessageOf(rows[i]), copies));
            |d| == (if i == n && copies > 0 then n + 1 else n) && d == Messages(rows[..|d|])
  {
    if i < |Delivered(log)| {
      RepeatedPublish(rows, log, i, copies);
    } else if copies > 0 {
      FirstPublish(rows, log, copies);
    } else {
      assert log + Copies(MessageOf(rows[i]), 0) == log;
    }
  }

  lemma PublishOrdered(limit: nat, p: Protocol, copies: nat, acknowledged: bool)
    requires Ordered(limit, p) && UniqueIds(p.rows)
    ensures Ordered(limit, Next(limit, p, Publish(copies, acknowledged)))
  {
    if Next(limit, p, Publish(copies, acknowledged)) != p {
      assert p.at.batch[p.at.sent] == p.rows[p.done + p.at.sent];
      PublishNext(p.rows, p.log, p.done + p.at.sent, copies);
    }
  }

  lemma BatchIds(rows: seq<OutboxRow>, lo: nat, hi: nat, i: nat)
    requires UniqueIds(rows) && lo <= hi <= |rows| && i < |rows|
    ensures rows[i].id in IdsOf(rows[lo..hi]) <==> lo <= i < hi
  {
  }

  lemma CommitOrdered(limit: nat, p: Protocol, landed: bool)
    requires Ordered(limit, p) && UniqueIds(p.rows)
    ensures Ordered(limit, Next(limit, p, CommitBatch(landed)))
  {
    var q := Next(limit, p, CommitBatch(landed));
    if q != p && landed {
      forall i | 0 <= i < |p.rows| ensures q.rows[i].published <==> i < q.done {
        BatchIds(p.rows, p.done, p.done + |p.at.batch|, i);
      }
      var n := |Delivered(p.log)|;
      assert Messages(q.rows[..n]) == Messages(p.rows[..n]);
    }
  }

  lemma PlacedAt(rows: seq<OutboxRow>, k: nat, row: OutboxRow)
    requires k <= |rows|
    ensures var more := Placed(rows, k, row);
            && |more| == |rows| + 1
            && (forall i | 0 <= i < |more| :: more[i] == if i < k then rows[i] else if i == k then row else rows[i - 1])
            && (forall i, j | 0 <= i <= j <= k :: more[i..j] == rows[i..j])
  {
  }

  lemma InsertOrdered(limit: nat, p: Protocol, k: nat, row: OutboxRow)
    requires Ordered(limit, p) && (Inserts(p, k, row) ==> Frontier(p) <= k)
    ensures Ordered(limit, Next(limit, p, Insert(k, row)))
  {
    var q, n := Next(limit, p, Insert(k, row)), |Delivered(p.log)|;
    if Inserts(p, k, row) {
      PlacedAt(p.rows, k, row);
      assert q.rows[..n] == q.rows[0..n] == p.rows[0..n] == p.rows[..n];
    }
  }

  lemma BatchIsSlice(rows: seq<OutboxRow>, limit: nat, done: nat)
    requires done <= |rows| && forall i | 0 <= i < |rows| :: rows[i].published <==> i < done
    ensures var n := |Batch(rows, limit)|;
            n <= limit && done + n <= |rows| && Batch(rows, limit) == rows[done..done + n]
  {
    BatchIsPending(rows, limit);
    PendingSuffix(rows, done);
    if |rows| - done > limit { assert rows[done..][..limit] == rows[done..done + limit]; }
  }

  lemma SelectOrdered(limit: nat, p: Protocol)
    requires Ordered(limit, p)
    ensures Ordered(limit, Next(limit, p, Select))
  {
    BatchIsSlice(p.rows, limit, p.done);
  }

  lemma NextOrdered(limit: nat, p: Protocol, s: Step)
    requires Ordered(limit, p) && UniqueIds(p.rows) && (s.Insert? && Inserts(p, s.k, s.row) ==> Frontier(p) <= s.k)
    ensures Ordered(limit, Next(limit, p, s))
  {
    match s
    case Insert(k, row) => InsertOrdered(limit, p, k, row);
    case Select => SelectOrdered(limit, p);
    case Publish(copies, acknowledged) => PublishOrdered(limit, p, copies, acknowledged);
    case CommitBatch(landed) => CommitOrdered(limit, p, landed);
    case Crash =>
  }

  lemma {:induction false} RunsOrdered(limit: nat, steps: seq<Step>)
    requires InOrder(limit, steps)
    ensures Ordered(limit, Run(limit, steps))
  {
    if steps != [] {
      RunsOrdered(limit, steps[..|steps| - 1]);
      RunsSound(limit, steps[..|steps| - 1]);
      NextOrdered(limit, Run(limit, steps[..|steps| - 1]), steps[|steps| - 1]);
    }
  }

  ghost predicate PrefixKept(p: Protocol) { Delivered(p.log) <= Messages(p.rows) }

  lemma OrderedPrefix(limit: nat, p: Protocol)
    requires Ordered(limit, p)
    ensures PrefixKept(p)
  {
    assert forall i | 0 <= i < |Delivered(p.log)| :: Delivered(p.log)[i] == MessageOf(p.rows[i]);
  }

  /** When rows commit at the frontier or behind it: at every reachable state the de-duplicated log is a prefix of the
      committed rows, covers the rows marked published, which are a prefix too, and runs at most `limit` beyond them. */
  lemma {:induction false} DeliveredInOrder(limit: nat, steps: seq<Step>)
    requires InOrder(limit, steps)
    ensures var p := Run(limit, steps);
            && PrefixKept(p)
            && (forall i | 0 <= i < |p.rows| :: p.rows[i].published <==> i < p.done)
            && p.done <= |Delivered(p.log)| <= p.done + limit
  {
    RunsOrdered(limit, steps);
    OrderedPrefix(limit, Run(limit, steps));
  }

  /** A pass that starts where an ordered run stands continues that run. */
  lemma {:induction false} PassContinuesRun(limit: nat, steps: seq<Step>, pass: seq<Step>)
    requires InOrder(limit, steps) && OnlyPublishes(pass)
    ensures InOrder(limit, steps + pass) && Run(limit, steps + pass) == From(limit, Run(limit, steps), pass)
  {
    if pass == [] {
      assert steps + pass == steps;
    } else {
      var init := pass[..|pass| - 1];
      PassContinuesRun(limit, steps, init);
      assert (steps + pass)[..|steps + pass| - 1] == steps + init;
    }
  }

  // ---- That condition is exact ----

  lemma {:induction false} ContinuesOrdered(limit: nat, p: Protocol, steps: seq<Step>)
    requires Sound(p) && Ordered(limit, p) && OnlyPublishes(steps)
    ensures Sound(From(limit, p, steps)) && Ordered(limit, From(limit, p, steps))
  {
    if steps != [] {
      var init, s := steps[..|steps| - 1], steps[|steps| - 1];
      ContinuesOrdered(limit, p, init);
      NextSound(limit, From(limit, p, init), s);
      NextOrdered(limit, From(limit, p, init), s);
    }
  }

  /** Whatever the publisher does from here, and whatever happens to it, the delivered messages stay a prefix. */
  ghost predicate KeepsPrefix(limit: nat, p: Protocol) {
    forall steps | OnlyPublishes(steps) :: PrefixKept(From(limit, p, steps))
  }

  lemma OrderedKeepsPrefix(limit: nat, p: Protocol)
    requires Sound(p) && Ordered(limit, p)
    ensures KeepsPrefix(limit, p)
  {
    forall steps | OnlyPublishes(steps) ensures PrefixKept(From(limit, p, steps)) {
      ContinuesOrdered(limit, p, steps);
      OrderedPrefix(limit, From(limit, p, steps));
    }
  }

  /** A row in front of a delivered one breaks the prefix. */
  lemma OvertakenBreaks(rows: seq<OutboxRow>, log: seq<Message>, k: nat, row: OutboxRow)
    requires Delivered(log) <= Messages(rows) && k < |Delivered(log)| && row.id !in IdsOf(rows)
    ensures !(Delivered(log) <= Messages(Placed(rows, k, row)))
  {
    assert Delivered(log)[k] == Messages(rows)[k] == MessageOf(rows[k]);
    assert rows[k].id in IdsOf(rows);
    assert Messages(Placed(rows, k, row))[k] == MessageOf(row);
  }

  /** The batch in flight is delivered as it was selected, whatever commits meanwhile. */
  lemma InFlightBreaks(limit: nat, p: Protocol, k: nat, row: OutboxRow)
    requires Sound(p) && Ordered(limit, p) && Inserts(p, k, row)
    requires p.at.Sending? && k < p.done + |p.at.batch|
    ensures !KeepsPrefix(limit, Next(limit, p, Insert(k, row)))
  {
    var q := Next(limit, p, Insert(k, row));
    var a := FinishBatch(limit, p);
    ContinuesOrdered(limit, p, a);
    OrderedPrefix(limit, From(limit, p, a));
    var b := FinishBatch(limit, q);
    OvertakenBreaks(p.rows, From(limit, p, a).log, k, row);
    assert !PrefixKept(From(limit, q, b));
  }

  /** In an ordered state, a committing row leaves the delivered messages a prefix, now and whatever the publisher
      does later, exactly when it commits at the frontier or behind it. */
  lemma LateRowBreaksPrefix(limit: nat, p: Protocol, k: nat, row: OutboxRow)
    requires Sound(p) && Ordered(limit, p) && Inserts(p, k, row)
    ensures KeepsPrefix(limit, Next(limit, p, Insert(k, row))) <==> Frontier(p) <= k
  {
    var q := Next(limit, p, Insert(k, row));
    if Frontier(p) <= k {
      InsertSound(limit, p, k, row);
      InsertOrdered(limit, p, k, row);
      OrderedKeepsPrefix(limit, q);
    } else if k < |Delivered(p.log)| {
      OrderedPrefix(limit, p);
      OvertakenBreaks(p.rows, p.log, k, row);
      assert OnlyPublishes([]) && From(limit, q, []) == q;
    } else {
      InFlightBreaks(limit, p, k, row);
    }
  }

  /** At every moment of the run. */
  ghost predicate AlwaysKeepsPrefix(limit: nat, steps: seq<Step>) {
    forall n | 0 <= n <= |steps| :: KeepsPrefix(limit, Run(limit, steps[..n]))
  }

  /** So over whole runs: the prefix holds at every moment and whatever the publisher does next exactly when
      every row commits at the frontier or behind it. */
  lemma {:induction false} PrefixIffInOrder(limit: nat, steps: seq<Step>)
    ensures AlwaysKeepsPrefix(limit, steps) <==> InOrder(limit, steps)
  {
    RunsSound(limit, steps);
    assert steps[..|steps|] == steps;
    if InOrder(limit, steps) {
      RunsOrdered(limit, steps);
      OrderedKeepsPrefix(limit, Run(limit, steps));
    }
    if steps != [] {
      var init, s := steps[..|steps| - 1], steps[|steps| - 1];
      PrefixIffInOrder(limit, init);
      RunsSound(limit, init);
      assert forall n | 0 <= n <= |init| :: steps[..n] == init[..n];
      if InOrder(limit, init) {
        RunsOrdered(limit, init);
        if s.Insert? && Inserts(Run(limit, init), s.k, s.row) {
          LateRowBreaksPrefix(limit, Run(limit, init), s.k, s.row);
        }
      }
    }
  }

  // ---- A run that breaks it ----

  lemma RunAppend(limit: nat, steps: seq<Step>, s: Step)
    ensures Run(limit, steps + [s]) == Next(limit, Run(limit, steps), s)
  {
    assert (steps + [s])[..|steps|] == steps;
  }

  function Sample(id: string): OutboxRow { OutboxRow(id, id, STATUS_CHANGED, Draft, false) }

  lemma SampleSelected(limit: nat) returns (steps: seq<Step>)
    requires limit >= 2
    ensures Run(limit, steps) == Protocol([Sample("a"), Sample("c")], [], Sending([Sample("a"), Sample("c")], 0), 0)
  {
    var insertA, insertC := Insert(0, Sample("a")), Insert(1, Sample("c"));
    RunAppend(limit, [], insertA);
    RunAppend(limit, [] + [insertA], insertC);
    RunAppend(limit, [] + [insertA] + [insertC], Select);
    assert Run(limit, []) == START;
    assert Placed([], 0, Sample("a")) == [Sample("a")];
    assert Placed([Sample("a")], 1, Sample("c")) == [Sample("a"), Sample("c")];
    assert IdsOf([Sample("a")]) == {"a"};
    var rows := [Sample("a"), Sample("c")];
    assert rows[1..] == [Sample("c")] && rows[1..][1..] == [];
    assert Batch(rows[1..], limit - 1) == [Sample("c")] + Batch([], limit - 2);
    assert Batch(rows, limit) == rows;
    steps := [] + [insertA] + [insertC] + [Select];
  }

  lemma SampleOvertaken(limit: nat) returns (steps: seq<Step>)
    requires limit >= 2
    ensures var a, b, c := Sample("a"), Sample("b"), Sample("c");
            Run(limit, steps) == Protocol([a, b, c], [MessageOf(a)], Sending([a, c], 1), 0)
  {
    steps := SampleSelected(limit);
    RunAppend(limit, steps, Publish(1, true));
    steps := steps + [Publish(1, true)];
    RunAppend(limit, steps, Insert(1, Sample("b")));
    assert IdsOf([Sample("a"), Sample("c")]) == {"a", "c"};
    assert Placed([Sample("a"), Sample("c")], 1, Sample("b")) == [Sample("a"), Sample("b"), Sample("c")];
    assert [] + Copies(MessageOf(Sample("a")), 1) == [MessageOf(Sample("a"))];
    steps := steps + [Insert(1, Sample("b"))];
  }

  /** A batch is selected and its first row published; then a row created between the two commits, behind everything
      delivered but in front of the batch in flight; then the second row is published. */
  lemma LateRowCanBreak(limit: nat) returns (steps: seq<Step>)
    requires limit >= 2
    ensures !PrefixKept(Run(limit, steps))
  {
    steps := SampleOvertaken(limit);
    var a, c := MessageOf(Sample("a")), MessageOf(Sample("c"));
    assert [] + Copies(a, 1) == [a] && Delivered([]) == [];
    DeliveredCopies([], a, 1);
    DeliveredCopies([a], c, 1);
    RunAppend(limit, steps, Publish(1, true));
    assert Delivered(Run(limit, steps).log + Copies(c, 1)) == [a, c];
    steps := steps + [Publish(1, true)];
    assert Messages(Run(limit, steps).rows)[1] == MessageOf(Sample("b"));
  }
}
