/** The transactional outbox and its publisher, over every failure a batch can meet: publishes that fail, that
    land and are reported as failed, or that land several times; marks and commits that fail or go
    unacknowledged; crashes before the commit, which release the rows the publisher had locked. */
module Outbox {
  import opened Domain
  import opened Tables
  import opened Records

  /** The message of an outbox row; the consumer recognises it by the event id. */
  datatype Message = Message(id: string, aggregateID: string, kind: string, status: Status)

  function MessageOf(row: OutboxRow): Message { Message(row.id, row.aggregateID, row.kind, row.status) }

  function Messages(rows: seq<OutboxRow>): (m: seq<Message>)
    ensures |m| == |rows| && forall i | 0 <= i < |rows| :: m[i] == MessageOf(rows[i])
  {
    seq(|rows|, i requires 0 <= i < |rows| => MessageOf(rows[i]))
  }

  /** The publisher is idle, or has selected a batch and published and marked its first `sent` rows. */
  datatype Position = Idle | Sending(batch: seq<OutboxRow>, sent: nat)

  /** Rows in created_at order, the broker's log, and the publisher. `done` is history: rows marked by committed
      batches. */
  datatype Protocol = Protocol(rows: seq<OutboxRow>, log: seq<Message>, at: Position, done: nat)

  datatype Step =
    | Insert(k: nat, row: OutboxRow)
    | Select
    | Publish(copies: nat, acknowledged: bool)
    | CommitBatch(landed: bool)
    | Crash

  function Pending(rows: seq<OutboxRow>): seq<OutboxRow> {
    if rows == [] then [] else (if rows[0].published then [] else [rows[0]]) + Pending(rows[1..])
  }

  /** The rows a batch selects: the first `limit` unpublished ones. */
  function Batch(rows: seq<OutboxRow>, limit: nat): seq<OutboxRow> {
    if rows == [] || limit == 0 then []
    else if rows[0].published then Batch(rows[1..], limit)
    else [rows[0]] + Batch(rows[1..], limit - 1)
  }

  /** That is, the start of the pending rows. */
  lemma {:induction false} BatchIsPending(rows: seq<OutboxRow>, limit: nat)
    ensures Batch(rows, limit) == if |Pending(rows)| <= limit then Pending(rows) else Pending(rows)[..limit]
  {
    if rows == [] || limit == 0 {
    } else if rows[0].published {
      BatchIsPending(rows[1..], limit);
    } else {
      BatchIsPending(rows[1..], limit - 1);
      var rest := Pending(rows[1..]);
      assert |rest| >= limit ==> ([rows[0]] + rest)[..limit] == [rows[0]] + rest[..limit - 1];
    }
  }

  lemma {:induction false} BatchFromRows(rows: seq<OutboxRow>, limit: nat)
    ensures forall b | b in Batch(rows, limit) :: b in rows
  {
    if rows != [] && limit > 0 {
      BatchFromRows(rows[1..], if rows[0].published then limit else limit - 1);
    }
  }

  function Copies(m: Message, n: nat): seq<Message> { seq(n, _ => m) }

  function IdsOf(rows: seq<OutboxRow>): set<string> { set row | row in rows :: row.id }

  function Placed(rows: seq<OutboxRow>, k: nat, row: OutboxRow): seq<OutboxRow>
    requires k <= |rows|
  {
    rows[..k] + [row] + rows[k..]
  }

  /** A row commits at place `k` of the created_at order: new, and not yet published. */
  predicate Inserts(p: Protocol, k: nat, row: OutboxRow) { k <= |p.rows| && row.id !in IdsOf(p.rows) && !row.published }

  /** An acknowledged publish has landed at least once. */
  function Next(limit: nat, p: Protocol, s: Step): Protocol {
    match s
    case Insert(k, row) =>
      if Inserts(p, k, row) then p.(rows := Placed(p.rows, k, row)) else p
    case Select => if p.at == Idle then p.(at := Sending(Batch(p.rows, limit), 0)) else p
    case Publish(copies, acknowledged) =>
      if p.at.Sending? && p.at.sent < |p.at.batch| && (acknowledged ==> copies > 0) then
        p.(log := p.log + Copies(MessageOf(p.at.batch[p.at.sent]), copies),
           at := if acknowledged then p.at.(sent := p.at.sent + 1) else Idle)
      else p
    case CommitBatch(landed) =>
      if p.at.Sending? && p.at.sent == |p.at.batch| then
        if landed then p.(rows := MarkPublished(p.rows, IdsOf(p.at.batch)), at := Idle, done := p.done + |p.at.batch|)
        else p.(at := Idle)
      else p
    case Crash => p.(at := Idle)
  }

  const START := Protocol([], [], Idle, 0)

  function Run(limit: nat, steps: seq<Step>): Protocol {
    if steps == [] then START else Next(limit, Run(limit, steps[..|steps| - 1]), steps[|steps| - 1])
  }

  /** The protocol after some steps from a given state. */
  function From(limit: nat, p: Protocol, steps: seq<Step>): Protocol {
    if steps == [] then p else Next(limit, From(limit, p, steps[..|steps| - 1]), steps[|steps| - 1])
  }

  /** Steps of a publisher, which inserts no rows. */
  predicate OnlyPublishes(steps: seq<Step>) { forall s | s in steps :: !s.Insert? }

  lemma Extend(limit: nat, p: Protocol, steps: seq<Step>, s: Step) returns (more: seq<Step>)
    ensures more == steps + [s] && From(limit, p, more) == Next(limit, From(limit, p, steps), s)
  {
    more := steps + [s];
    assert more[..|steps|] == steps;
  }

  /** The consumer's view: the first occurrence of each event id. */
  function Delivered(log: seq<Message>): seq<Message> {
    if log == [] then []
    else
      var init, last := Delivered(log[..|log| - 1]), log[|log| - 1];
      if Seen(init, last.id) then init else init + [last]
  }

  predicate Seen(messages: seq<Message>, id: string) { exists m | m in messages :: m.id == id }

  lemma {:induction false} DeliveredCopies(log: seq<Message>, m: Message, n: nat)
    ensures Delivered(log + Copies(m, n)) ==
                if n == 0 || Seen(Delivered(log), m.id) then Delivered(log) else Delivered(log) + [m]
  {
    if n == 0 {
      assert log + Copies(m, n) == log;
    } else {
      var more := log + Copies(m, n);
      DeliveredCopies(log, m, n - 1);
      assert more[..|more| - 1] == log + Copies(m, n - 1) && more[|more| - 1] == m;
      assert n > 1 && !Seen(Delivered(log), m.id) ==> (Delivered(log) + [m])[|Delivered(log)|] == m;
    }
  }

  // ---- Whatever the commit order ----

  ghost predicate UniqueIds(rows: seq<OutboxRow>) {
    forall i, j | 0 <= i < j < |rows| :: rows[i].id != rows[j].id
  }

  ghost predicate RowFor(rows: seq<OutboxRow>, m: Message) { exists row :: row in rows && MessageOf(row) == m }

  /** Only committed rows are delivered, and every row marked published has been. */
  ghost predicate Sound(p: Protocol) {
    && UniqueIds(p.rows)
    && (forall m | m in p.log :: RowFor(p.rows, m))
    && (forall row | row in p.rows && row.published :: MessageOf(row) in p.log)
    && (p.at.Sending? ==> p.at.sent <= |p.at.batch| && forall i | 0 <= i < |p.at.batch| :: InFlight(p, i))
  }

  ghost predicate InFlight(p: Protocol, i: nat)
    requires p.at.Sending? && i < |p.at.batch|
  {
    RowFor(p.rows, MessageOf(p.at.batch[i])) && (i < p.at.sent ==> MessageOf(p.at.batch[i]) in p.log)
  }

  ghost predicate Drained(p: Protocol) { forall row | row in p.rows :: row.published }

  lemma InsertRows(rows: seq<OutboxRow>, k: nat, row: OutboxRow)
    requires UniqueIds(rows) && k <= |rows| && row.id !in IdsOf(rows)
    ensures var more := Placed(rows, k, row);
            UniqueIds(more) && forall r :: r in more <==> r == row || r in rows
  {
  }

  lemma InsertSound(limit: nat, p: Protocol, k: nat, row: OutboxRow)
    requires Sound(p)
    ensures Sound(Next(limit, p, Insert(k, row)))
  {
    var q := Next(limit, p, Insert(k, row));
    if q != p {
      InsertRows(p.rows, k, row);
      if p.at.Sending? { forall i | 0 <= i < |p.at.batch| ensures InFlight(q, i) { assert InFlight(p, i); } }
    }
  }

  lemma PublishSound(limit: nat, p: Protocol, copies: nat, acknowledged: bool)
    requires Sound(p)
    ensures Sound(Next(limit, p, Publish(copies, acknowledged)))
  {
    var q := Next(limit, p, Publish(copies, acknowledged));
    if q != p {
      var sent := p.at.sent;
      assert InFlight(p, sent);
      assert copies > 0 ==> Copies(MessageOf(p.at.batch[sent]), copies)[0] in q.log;
      if q.at.Sending? { forall i | 0 <= i < |q.at.batch| ensures InFlight(q, i) { assert InFlight(p, i); } }
    }
  }

  lemma MarkedRow(rows: seq<OutboxRow>, ids: set<string>, row: OutboxRow)
    ensures row in rows ==> row in MarkPublished(rows, ids) || row.(published := true) in MarkPublished(rows, ids)
    ensures row in MarkPublished(rows, ids) ==>
              row in rows || (row.published && row.id in ids && exists r :: r in rows && MessageOf(r) == MessageOf(row))
  {
    var marked := MarkPublished(rows, ids);
    if row in rows { var i :| 0 <= i < |rows| && rows[i] == row; assert marked[i] in marked; }
    if row in marked { var i :| 0 <= i < |rows| && marked[i] == row; assert rows[i] in rows; }
  }

  lemma SameMessage(rows: seq<OutboxRow>, r: OutboxRow, m: Message)
    requires UniqueIds(rows) && r in rows && RowFor(rows, m) && r.id == m.id
    ensures MessageOf(r) == m
  {
  }

  lemma CommitSound(limit: nat, p: Protocol, landed: bool)
    requires Sound(p)
    ensures Sound(Next(limit, p, CommitBatch(landed)))
  {
    var q := Next(limit, p, CommitBatch(landed));
    if q != p && landed {
      var ids := IdsOf(p.at.batch);
      forall m | m in q.log ensures RowFor(q.rows, m) {
        var r :| r in p.rows && MessageOf(r) == m;
        MarkedRow(p.rows, ids, r);
      }
      forall row | row in q.rows && row.published ensures MessageOf(row) in q.log {
        MarkedRow(p.rows, ids, row);
        if row !in p.rows {
          var r :| r in p.rows && MessageOf(r) == MessageOf(row);
          var b :| b in p.at.batch && b.id == row.id;
          var i :| 0 <= i < |p.at.batch| && p.at.batch[i] == b;
          assert InFlight(p, i);
          SameMessage(p.rows, r, MessageOf(b));
        }
      }
    }
  }

  lemma NextSound(limit: nat, p: Protocol, s: Step)
    requires Sound(p)
    ensures Sound(Next(limit, p, s))
  {
    match s
    case Insert(k, row) => InsertSound(limit, p, k, row);
    case Select =>
      BatchFromRows(p.rows, limit);
      var q := Next(limit, p, s);
      if q != p { forall i | 0 <= i < |q.at.batch| ensures InFlight(q, i) { assert q.at.batch[i] in p.rows; } }
    case Publish(copies, acknowledged) => PublishSound(limit, p, copies, acknowledged);
    case CommitBatch(landed) => CommitSound(limit, p, landed);
    case Crash =>
  }

  lemma {:induction false} RunsSound(limit: nat, steps: seq<Step>)
    ensures Sound(Run(limit, steps))
  {
    if steps != [] {
      RunsSound(limit, steps[..|steps| - 1]);
      NextSound(limit, Run(limit, steps[..|steps| - 1]), steps[|steps| - 1]);
    }
  }

  lemma {:induction false} DeliveredOnce(log: seq<Message>)
    ensures forall i, j | 0 <= i < j < |Delivered(log)| :: Delivered(log)[i].id != Delivered(log)[j].id
    ensures forall m | m in Delivered(log) :: m in log
    ensures forall m | m in log :: Seen(Delivered(log), m.id)
  {
    if log != [] {
      var init, last := log[..|log| - 1], log[|log| - 1];
      DeliveredOnce(init);
      assert log == init + [last];
      assert Seen(Delivered(log), last.id) by {
        assert !Seen(Delivered(init), last.id) ==> Delivered(log)[|Delivered(init)|] == last;
      }
      forall m | m in log ensures Seen(Delivered(log), m.id) { if m in init { assert Seen(Delivered(init), m.id); } }
    }
  }

  /** In whatever order rows commit: after de-duplication no event occurs twice, nothing but committed rows is
      delivered, every row marked published is, and once all are marked the delivered messages are exactly the
      committed rows. */
  lemma ExactlyOnce(limit: nat, steps: seq<Step>)
    ensures var p := Run(limit, steps);
            && (forall i, j | 0 <= i < j < |Delivered(p.log)| :: Delivered(p.log)[i].id != Delivered(p.log)[j].id)
            && (forall m | m in Delivered(p.log) :: RowFor(p.rows, m))
            && (forall row | row in p.rows && row.published ::
                  Message(row.id, row.aggregateID, row.kind, row.status) in Delivered(p.log))
            && (Drained(p) ==> forall m :: m in Delivered(p.log) <==> RowFor(p.rows, m))
  {
    var p := Run(limit, steps);
    RunsSound(limit, steps);
    DeliveredOnce(p.log);
    forall row | row in p.rows && row.published ensures MessageOf(row) in Delivered(p.log) {
      assert Seen(Delivered(p.log), row.id);
      var m :| m in Delivered(p.log) && m.id == row.id;
      SameMessage(p.rows, row, m);
    }
  }

  // ---- Passes of the publisher ----

  lemma {:induction false} FromFrom(limit: nat, p: Protocol, a: seq<Step>, b: seq<Step>)
    ensures From(limit, p, a + b) == From(limit, From(limit, p, a), b)
  {
    if b == [] {
      assert a + b == a;
    } else {
      FromFrom(limit, p, a, b[..|b| - 1]);
      assert (a + b)[..|a + b| - 1] == a + b[..|b| - 1];
    }
  }

  /** Marking goes row by row: what the head becomes, and the marked tail. */
  lemma MarkTail(rows: seq<OutboxRow>, ids: set<string>, others: set<string>)
    requires rows != [] && forall i | 1 <= i < |rows| :: rows[i].id in ids <==> rows[i].id in others
    ensures Pending(MarkPublished(rows, ids))
            == (if rows[0].published || rows[0].id in ids then [] else [rows[0]])
               + Pending(MarkPublished(rows[1..], others))
  {
    assert MarkPublished(rows, ids)[1..] == MarkPublished(rows[1..], others);
  }

  lemma MarkNone(rows: seq<OutboxRow>)
    ensures MarkPublished(rows, IdsOf([])) == rows
  {
  }

  /** Selecting the head adds its id to those of the rest of the batch, where no later row has it. */
  lemma HeadId(rows: seq<OutboxRow>, others: seq<OutboxRow>)
    requires UniqueIds(rows) && rows != []
    ensures rows[0].id in IdsOf([rows[0]] + others)
    ensures forall i | 1 <= i < |rows| :: rows[i].id in IdsOf([rows[0]] + others) <==> rows[i].id in IdsOf(others)
  {
  }

  /** Marking a batch leaves exactly the pending rows after the first |batch|. */
  predicate LeavesRest(rows: seq<OutboxRow>, batch: seq<OutboxRow>) {
    |batch| <= |Pending(rows)| && Pending(MarkPublished(rows, IdsOf(batch))) == Pending(rows)[|batch|..]
  }

  lemma SkipHead(rows: seq<OutboxRow>, batch: seq<OutboxRow>)
    requires rows != [] && rows[0].published && LeavesRest(rows[1..], batch)
    ensures LeavesRest(rows, batch)
  {
    MarkTail(rows, IdsOf(batch), IdsOf(batch));
  }

  lemma TakeHead(rows: seq<OutboxRow>, others: seq<OutboxRow>)
    requires UniqueIds(rows) && rows != [] && !rows[0].published && LeavesRest(rows[1..], others)
    ensures LeavesRest(rows, [rows[0]] + others)
  {
    HeadId(rows, others);
    MarkTail(rows, IdsOf([rows[0]] + others), IdsOf(others));
  }

  lemma {:induction false} MarkedLeavesRest(rows: seq<OutboxRow>, limit: nat)
    requires UniqueIds(rows)
    ensures LeavesRest(rows, Batch(rows, limit))
  {
    if rows == [] {
    } else if limit == 0 {
      MarkNone(rows);
    } else if rows[0].published {
      MarkedLeavesRest(rows[1..], limit);
      SkipHead(rows, Batch(rows[1..], limit));
    } else {
      MarkedLeavesRest(rows[1..], limit - 1);
      TakeHead(rows, Batch(rows[1..], limit - 1));
    }
  }

  lemma PassDrains(rows: seq<OutboxRow>, limit: nat)
    requires UniqueIds(rows)
    ensures var marked := MarkPublished(rows, IdsOf(Batch(rows, limit)));
            UniqueIds(marked) && |Pending(marked)| == if |Pending(rows)| <= limit then 0 else |Pending(rows)| - limit
  {
    MarkedLeavesRest(rows, limit);
    BatchIsPending(rows, limit);
  }

  // ---- Draining ----

  /** `n` publishes of a batch, one after the other, all well. */
  lemma {:induction false} PublishSome(limit: nat, p: Protocol, n: nat) returns (steps: seq<Step>)
    requires p.at.Sending? && p.at.sent + n <= |p.at.batch|
    ensures OnlyPublishes(steps)
    ensures var sent := p.at.sent;
            From(limit, p, steps) ==
              p.(log := p.log + Messages(p.at.batch[sent..sent + n]), at := Sending(p.at.batch, sent + n))
  {
    steps := [];
    var sent := p.at.sent;
    if n == 0 {
      assert p.log + Messages(p.at.batch[sent..sent]) == p.log;
    } else {
      steps := PublishSome(limit, p, n - 1);
      steps := Extend(limit, p, steps, Publish(1, true));
      var m := MessageOf(p.at.batch[sent + n - 1]);
      var before := Messages(p.at.batch[sent..sent + n - 1]);
      assert Copies(m, 1) == [m];
      assert Messages(p.at.batch[sent..sent + n]) == before + [m];
      assert p.log + before + [m] == p.log + (before + [m]);
    }
  }

  lemma FinishBatch(limit: nat, p: Protocol) returns (steps: seq<Step>)
    requires p.at.Sending? && p.at.sent <= |p.at.batch|
    ensures OnlyPublishes(steps)
    ensures From(limit, p, steps) ==
              p.(log := p.log + Messages(p.at.batch[p.at.sent..]), at := Sending(p.at.batch, |p.at.batch|))
  {
    steps := PublishSome(limit, p, |p.at.batch| - p.at.sent);
    assert p.at.batch[p.at.sent..|p.at.batch|] == p.at.batch[p.at.sent..];
  }

  lemma FullPass(limit: nat, p: Protocol) returns (steps: seq<Step>)
    requires p.at == Idle
    ensures OnlyPublishes(steps)
    ensures var q := From(limit, p, steps); q.at == Idle && q.rows == MarkPublished(p.rows, IdsOf(Batch(p.rows, limit)))
  {
    var one := Extend(limit, p, [], Select);
    var rest := FinishBatch(limit, From(limit, p, one));
    FromFrom(limit, p, one, rest);
    steps := Extend(limit, p, one + rest, CommitBatch(true));
  }

  lemma {:induction false} NothingPending(rows: seq<OutboxRow>)
    requires Pending(rows) == []
    ensures forall row | row in rows :: row.published
  {
    if rows != [] { NothingPending(rows[1..]); }
  }

  /** From any idle state the publisher can mark everything. */
  lemma {:induction false} Drain(limit: nat, p: Protocol) returns (steps: seq<Step>)
    requires limit > 0 && p.at == Idle && UniqueIds(p.rows)
    ensures OnlyPublishes(steps) && Drained(From(limit, p, steps))
    decreases |Pending(p.rows)|
  {
    steps := [];
    if Pending(p.rows) == [] {
      NothingPending(p.rows);
    } else {
      PassDrains(p.rows, limit);
      var pass := FullPass(limit, p);
      var rest := Drain(limit, From(limit, p, pass));
      FromFrom(limit, p, pass, rest);
      steps := pass + rest;
    }
  }
}
