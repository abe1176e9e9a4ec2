/** Which statuses a drained log can end with: exactly what the consumer can be told last about a document, over
    everything the publisher may do and meet from a given state on. */
module LastStatus {
  import opened Domain
  import opened Tables
  import opened Records
  import opened Outbox
  import opened LastWord

  /** Row `i` is about the document and has not been delivered. */
  predicate Waits(p: Protocol, about: string, i: nat)
    requires i < |p.rows|
  {
    p.rows[i].aggregateID == about && !Heard(p, p.rows[i])
  }

  predicate NothingWaits(p: Protocol, about: string) { forall i | 0 <= i < |p.rows| :: !Waits(p, about, i) }

  /** The row is in the batch in flight and has not been published from it. */
  predicate Unsent(at: Position, id: string) {
    at.Sending? && exists i | at.sent <= i < |at.batch| :: at.batch[i].id == id
  }

  /** Of the rows that wait about the document, `j` is the one furthest back. */
  predicate Furthest(p: Protocol, about: string, j: nat)
    requires j < |p.rows|
  {
    Waits(p, about, j) && forall i | j < i < |p.rows| :: !Waits(p, about, i)
  }

  /** Of those outside the rest of the batch in flight, `j` is the one furthest back. */
  predicate FurthestOutside(p: Protocol, about: string, j: nat)
    requires j < |p.rows|
  {
    && Waits(p, about, j) && !Unsent(p.at, p.rows[j].id)
    && forall i | j < i < |p.rows| && Waits(p, about, i) :: Unsent(p.at, p.rows[i].id)
  }

  predicate MayBeLast(p: Protocol, about: string, j: nat)
    requires j < |p.rows|
  {
    Furthest(p, about, j) || FurthestOutside(p, about, j)
  }

  predicate Says(last: Option<Message>, c: Status) { last.Some? && last.value.status == c }

  /** What can be heard last about the document states `c`: what was, when nothing about it waits; else the row that
      waits furthest back, and the one furthest back that the batch in flight does not carry ahead of its turn. */
  predicate CanOnlySay(p: Protocol, about: string, c: Status) {
    if NothingWaits(p, about) then Says(LastAbout(Delivered(p.log), about), c)
    else forall j | 0 <= j < |p.rows| && MayBeLast(p, about, j) :: p.rows[j].status == c
  }

  // ---- The batch in flight stands in created_at order ----

  predicate InFront(rows: seq<OutboxRow>, x: string, y: string) {
    forall i, k | 0 <= i < |rows| && 0 <= k < |rows| && rows[i].id == x && rows[k].id == y :: i < k
  }

  predicate BatchInPlace(p: Protocol) {
    p.at.Sending? ==> forall a, b | 0 <= a < b < |p.at.batch| :: InFront(p.rows, p.at.batch[a].id, p.at.batch[b].id)
  }

  lemma {:induction false} BatchKeepsOrder(rows: seq<OutboxRow>, limit: nat, a: nat, b: nat)
    requires UniqueIds(rows) && a < b < |Batch(rows, limit)|
    ensures InFront(rows, Batch(rows, limit)[a].id, Batch(rows, limit)[b].id)
  {
    var rest := if rows[0].published then limit else limit - 1;
    BatchFromRows(rows[1..], rest);
    assert forall r | r in rows[1..] :: r.id != rows[0].id;
    if rows[0].published {
      BatchKeepsOrder(rows[1..], rest, a, b);
      InFrontLater(rows, Batch(rows, limit)[a].id, Batch(rows, limit)[b].id);
    } else if a > 0 {
      BatchKeepsOrder(rows[1..], rest, a - 1, b - 1);
      InFrontLater(rows, Batch(rows, limit)[a].id, Batch(rows, limit)[b].id);
    } else {
      assert Batch(rows, limit)[b] in Batch(rows[1..], rest);
    }
  }

  lemma InFrontLater(rows: seq<OutboxRow>, x: string, y: string)
    requires rows != [] && rows[0].id != x && rows[0].id != y && InFront(rows[1..], x, y)
    ensures InFront(rows, x, y)
  {
    forall i, k | 0 <= i < |rows| && 0 <= k < |rows| && rows[i].id == x && rows[k].id == y ensures i < k {
      assert rows[1..][i - 1] == rows[i] && rows[1..][k - 1] == rows[k];
    }
  }

  lemma InsertKeepsPlace(limit: nat, p: Protocol, k: nat, row: OutboxRow)
    requires Sound(p) && BatchInPlace(p)
    ensures BatchInPlace(Next(limit, p, Insert(k, row)))
  {
    var q := Next(limit, p, Insert(k, row));
    if Inserts(p, k, row) && p.at.Sending? {
      NewIsUnheard(p, row);
      forall a, b | 0 <= a < b < |p.at.batch| ensures InFront(q.rows, p.at.batch[a].id, p.at.batch[b].id) {
        InFrontInserted(p.rows, k, row, p.at.batch[a].id, p.at.batch[b].id);
      }
    }
  }

  lemma InFrontInserted(rows: seq<OutboxRow>, k: nat, row: OutboxRow, x: string, y: string)
    requires k <= |rows| && row.id != x && row.id != y && InFront(rows, x, y)
    ensures InFront(Placed(rows, k, row), x, y)
  {
    var more := Placed(rows, k, row);
    forall i, j | 0 <= i < |more| && 0 <= j < |more| && more[i].id == x && more[j].id == y ensures i < j {
      var i', j' := if i < k then i else i - 1, if j < k then j else j - 1;
      assert more[i] == rows[i'] && more[j] == rows[j'];
    }
  }

  lemma NextKeepsPlace(limit: nat, p: Protocol, s: Step)
    requires Sound(p) && BatchInPlace(p)
    ensures BatchInPlace(Next(limit, p, s))
  {
    match s
    case Insert(k, row) => InsertKeepsPlace(limit, p, k, row);
    case Select =>
      forall a, b | 0 <= a < b < |Batch(p.rows, limit)|
        ensures InFront(p.rows, Batch(p.rows, limit)[a].id, Batch(p.rows, limit)[b].id)
      {
        BatchKeepsOrder(p.rows, limit, a, b);
      }
    case _ =>
  }

  // ---- No step adds to what can be heard last ----

  /** Nothing new is heard about the document, and what the batch carries of it is as before or nothing. */
  lemma QuietKeeps(p: Protocol, q: Protocol, about: string, c: Status)
    requires CanOnlySay(p, about, c) && |q.rows| == |p.rows|
    requires forall i | 0 <= i < |p.rows| :: MessageOf(q.rows[i]) == MessageOf(p.rows[i])
    requires forall i | 0 <= i < |p.rows| :: Waits(q, about, i) == Waits(p, about, i)
    requires LastAbout(Delivered(q.log), about) == LastAbout(Delivered(p.log), about)
    requires || q.at == Idle
             || forall i | 0 <= i < |p.rows| && Waits(p, about, i) ::
                  Unsent(q.at, p.rows[i].id) == Unsent(p.at, p.rows[i].id)
    ensures CanOnlySay(q, about, c)
  {
    if !NothingWaits(p, about) {
      forall j | 0 <= j < |q.rows| && MayBeLast(q, about, j) ensures q.rows[j].status == c {
        assert MessageOf(q.rows[j]) == MessageOf(p.rows[j]);
        assert MayBeLast(p, about, j);
      }
    }
  }

  lemma SelectSays(limit: nat, p: Protocol, about: string, c: Status)
    requires Sound(p) && CanOnlySay(p, about, c)
    ensures CanOnlySay(Next(limit, p, Select), about, c)
  {
    var q := Next(limit, p, Select);
    assert forall i | 0 <= i < |p.rows| :: Waits(q, about, i) == Waits(p, about, i);
    if q != p && !NothingWaits(p, about) {
      forall j | 0 <= j < |q.rows| && FurthestOutside(q, about, j) ensures Furthest(p, about, j) {
        forall i | j < i < |p.rows| ensures !Waits(p, about, i) {
          if Waits(p, about, i) { CarriedInTurn(limit, p, j, i); }
        }
      }
    }
  }

  /** A batch that carries a row carries every row in front of it that waits. */
  lemma CarriedInTurn(limit: nat, p: Protocol, j: nat, i: nat)
    requires Sound(p) && j < i < |p.rows| && !Heard(p, p.rows[j])
    requires Unsent(Sending(Batch(p.rows, limit), 0), p.rows[i].id)
    ensures Unsent(Sending(Batch(p.rows, limit), 0), p.rows[j].id)
  {
    if p.rows[j].published { PublishedIsHeard(p, p.rows[j]); }
    var b :| 0 <= b < |Batch(p.rows, limit)| && Batch(p.rows, limit)[b].id == p.rows[i].id;
    var a := BatchTakesFront(p.rows, limit, j, i, b);
    assert Batch(p.rows, limit)[a].id == p.rows[j].id;
  }

  /** Row `r`, the next of the batch in flight, is heard. */
  lemma HeardKeeps(p: Protocol, q: Protocol, about: string, c: Status, r: nat)
    requires CanOnlySay(p, about, c) && q.rows == p.rows && r < |p.rows| && Waits(p, about, r)
    requires forall i | 0 <= i < |p.rows| :: Waits(q, about, i) <==> Waits(p, about, i) && i != r
    requires LastAbout(Delivered(q.log), about) == Some(MessageOf(p.rows[r]))
    requires Unsent(p.at, p.rows[r].id)
    requires forall i | 0 <= i < |p.rows| && i != r && Unsent(p.at, p.rows[i].id) :: r < i
    requires || q.at == Idle
             || forall i | 0 <= i < |p.rows| && i != r :: Unsent(q.at, p.rows[i].id) == Unsent(p.at, p.rows[i].id)
    ensures CanOnlySay(q, about, c)
  {
    if NothingWaits(q, about) {
      assert Furthest(p, about, r);
    } else {
      forall j | 0 <= j < |q.rows| && MayBeLast(q, about, j) ensures q.rows[j].status == c {
        assert MayBeLast(p, about, j);
      }
    }
  }

  /** What one publish changes in what has been heard about the document. */
  lemma PublishHears(limit: nat, p: Protocol, about: string, copies: nat, acknowledged: bool)
    requires Sound(p) && Next(limit, p, Publish(copies, acknowledged)) != p
    ensures var q, b := Next(limit, p, Publish(copies, acknowledged)), p.at.batch[p.at.sent];
            && (forall row :: Heard(q, row) <==> Heard(p, row) || (copies > 0 && b.id == row.id))
            && LastAbout(Delivered(q.log), about) ==
                if copies == 0 || Heard(p, b) || b.aggregateID != about then LastAbout(Delivered(p.log), about)
                else Some(MessageOf(b))
  {
    var q, b, d := Next(limit, p, Publish(copies, acknowledged)), p.at.batch[p.at.sent], Delivered(p.log);
    HearsOne(limit, p, copies, acknowledged);
    forall row
      ensures Heard(q, row) <==> Heard(p, row) || (copies > 0 && b.id == row.id)
    {
      SeenMore(d, MessageOf(b), row.id);
    }
    LastAboutAppend(d, MessageOf(b), about);
  }

  lemma PublishSays(limit: nat, p: Protocol, about: string, c: Status, copies: nat, acknowledged: bool)
    requires Sound(p) && BatchInPlace(p) && CanOnlySay(p, about, c)
    ensures CanOnlySay(Next(limit, p, Publish(copies, acknowledged)), about, c)
  {
    var q := Next(limit, p, Publish(copies, acknowledged));
    if q != p {
      PublishHears(limit, p, about, copies, acknowledged);
      var r := RowNumber(p, p.at.sent);
      SentOne(p, q, r);
      forall i | 0 <= i < |p.rows|
        ensures Waits(q, about, i) <==> Waits(p, about, i) && (copies == 0 || i != r)
      {
        assert i != r ==> p.rows[i].id != p.rows[r].id;
      }
      if Waits(p, about, r) && copies > 0 {
        UnsentInPlace(p, r);
        HeardKeeps(p, q, about, c, r);
      } else {
        QuietKeeps(p, q, about, c);
      }
    }
  }

  lemma RowNumber(p: Protocol, b: nat) returns (r: nat)
    requires Sound(p) && p.at.Sending? && b < |p.at.batch|
    ensures r < |p.rows| && MessageOf(p.rows[r]) == MessageOf(p.at.batch[b])
  {
    assert InFlight(p, b);
    var row :| row in p.rows && MessageOf(row) == MessageOf(p.at.batch[b]);
    r :| 0 <= r < |p.rows| && p.rows[r] == row;
  }

  /** What is left of the batch after its next row. */
  lemma SentOne(p: Protocol, q: Protocol, r: nat)
    requires Sound(p) && p.at.Sending? && p.at.sent < |p.at.batch| && r < |p.rows|
    requires p.rows[r].id == p.at.batch[p.at.sent].id && (q.at == Idle || q.at == p.at.(sent := p.at.sent + 1))
    ensures q.at != Idle ==>
              forall i | 0 <= i < |p.rows| && i != r :: Unsent(q.at, p.rows[i].id) == Unsent(p.at, p.rows[i].id)
  {
  }

  lemma UnsentInPlace(p: Protocol, r: nat)
    requires Sound(p) && BatchInPlace(p) && p.at.Sending? && p.at.sent < |p.at.batch| && r < |p.rows|
    requires p.rows[r].id == p.at.batch[p.at.sent].id
    ensures Unsent(p.at, p.rows[r].id)
    ensures forall i | 0 <= i < |p.rows| && i != r && Unsent(p.at, p.rows[i].id) :: r < i
  {
    forall i | 0 <= i < |p.rows| && i != r && Unsent(p.at, p.rows[i].id) ensures r < i {
      var b :| p.at.sent <= b < |p.at.batch| && p.at.batch[b].id == p.rows[i].id;
      if b > p.at.sent { assert InFront(p.rows, p.at.batch[p.at.sent].id, p.at.batch[b].id); }
    }
  }

  lemma CommitSays(limit: nat, p: Protocol, about: string, c: Status, landed: bool)
    requires CanOnlySay(p, about, c)
    ensures CanOnlySay(Next(limit, p, CommitBatch(landed)), about, c)
  {
    var q := Next(limit, p, CommitBatch(landed));
    if q != p {
      forall i | 0 <= i < |p.rows| ensures Waits(q, about, i) == Waits(p, about, i) {
        assert MessageOf(q.rows[i]) == MessageOf(p.rows[i]);
      }
      QuietKeeps(p, q, about, c);
    }
  }

  lemma NextSays(limit: nat, p: Protocol, about: string, c: Status, s: Step)
    requires Sound(p) && BatchInPlace(p) && CanOnlySay(p, about, c) && !s.Insert?
    ensures CanOnlySay(Next(limit, p, s), about, c)
  {
    match s
    case Select => SelectSays(limit, p, about, c);
    case Publish(copies, acknowledged) => PublishSays(limit, p, about, c, copies, acknowledged);
    case CommitBatch(landed) => CommitSays(limit, p, about, c, landed);
    case Crash => QuietKeeps(p, Next(limit, p, s), about, c);
  }

  lemma {:induction false} ContinuationSays(limit: nat, p: Protocol, about: string, c: Status, steps: seq<Step>)
    requires Sound(p) && BatchInPlace(p) && CanOnlySay(p, about, c) && OnlyPublishes(steps)
    ensures var q := From(limit, p, steps); Sound(q) && BatchInPlace(q) && CanOnlySay(q, about, c)
  {
    if steps != [] {
      var init, s := steps[..|steps| - 1], steps[|steps| - 1];
      ContinuationSays(limit, p, about, c, init);
      NextSound(limit, From(limit, p, init), s);
      NextKeepsPlace(limit, From(limit, p, init), s);
      NextSays(limit, From(limit, p, init), about, c, s);
    }
  }

  // ---- And each of it can be heard last ----

  /** However the publisher goes on, once everything is marked the last message about the document states `c`. */
  ghost predicate AlwaysSays(limit: nat, p: Protocol, about: string, c: Status) {
    forall steps | OnlyPublishes(steps) && Drained(From(limit, p, steps)) ::
      Says(LastAbout(Delivered(From(limit, p, steps).log), about), c)
  }

  lemma {:induction false} ContinuesSound(limit: nat, p: Protocol, steps: seq<Step>)
    requires Sound(p) && OnlyPublishes(steps)
    ensures Sound(From(limit, p, steps))
  {
    if steps != [] {
      ContinuesSound(limit, p, steps[..|steps| - 1]);
      NextSound(limit, From(limit, p, steps[..|steps| - 1]), steps[|steps| - 1]);
    }
  }

  lemma NothingMorePublished(limit: nat, p: Protocol, about: string, copies: nat, acknowledged: bool)
    requires Sound(p) && NothingWaits(p, about)
    ensures var q := Next(limit, p, Publish(copies, acknowledged));
            NothingWaits(q, about) && LastAbout(Delivered(q.log), about) == LastAbout(Delivered(p.log), about)
  {
    var q := Next(limit, p, Publish(copies, acknowledged));
    if q != p {
      PublishHears(limit, p, about, copies, acknowledged);
      var r := RowNumber(p, p.at.sent);
      assert !Waits(p, about, r);
      forall i | 0 <= i < |q.rows| ensures !Waits(q, about, i) { assert !Waits(p, about, i); }
    }
  }

  /** When nothing about the document waits, no step changes what was heard last. */
  lemma NothingMore(limit: nat, p: Protocol, about: string, s: Step)
    requires Sound(p) && NothingWaits(p, about) && !s.Insert?
    ensures var q := Next(limit, p, s);
            NothingWaits(q, about) && LastAbout(Delivered(q.log), about) == LastAbout(Delivered(p.log), about)
  {
    var q := Next(limit, p, s);
    if s.Publish? {
      NothingMorePublished(limit, p, about, s.copies, s.acknowledged);
    } else {
      forall i | 0 <= i < |q.rows| ensures !Waits(q, about, i) {
        assert MessageOf(q.rows[i]) == MessageOf(p.rows[i]) && !Waits(p, about, i);
      }
    }
  }

  lemma {:induction false} NothingMoreEver(limit: nat, p: Protocol, about: string, steps: seq<Step>)
    requires Sound(p) && NothingWaits(p, about) && OnlyPublishes(steps)
    ensures var q := From(limit, p, steps);
            NothingWaits(q, about) && LastAbout(Delivered(q.log), about) == LastAbout(Delivered(p.log), about)
  {
    if steps != [] {
      var init, s := steps[..|steps| - 1], steps[|steps| - 1];
      NothingMoreEver(limit, p, about, init);
      ContinuesSound(limit, p, init);
      NothingMore(limit, From(limit, p, init), about, s);
    }
  }

  lemma FurthestIsSaid(limit: nat, p: Protocol, about: string, c: Status, j: nat)
    requires limit > 0 && Sound(p) && AlwaysSays(limit, p, about, c) && j < |p.rows| && Furthest(p, about, j)
    ensures p.rows[j].status == c
  {
    forall i | j < i < |p.rows| && p.rows[i].aggregateID == about
      ensures Heard(p, p.rows[i])
    {
      assert !Waits(p, about, i);
    }
    var steps := EndsWith(limit, p, j);
  }

  lemma SeenIff(log: seq<Message>, id: string)
    ensures Seen(Delivered(log), id) <==> Seen(log, id)
  {
    DeliveredOnce(log);
  }

  lemma SeenInBoth(a: seq<Message>, b: seq<Message>, id: string)
    ensures Seen(a + b, id) <==> Seen(a, id) || Seen(b, id)
  {
    assert forall m | m in a || m in b :: m in a + b;
  }

  lemma SeenInRest(at: Position, id: string)
    requires at.Sending? && at.sent <= |at.batch|
    ensures Seen(Messages(at.batch[at.sent..]), id) <==> Unsent(at, id)
  {
    var rest := at.batch[at.sent..];
    if Unsent(at, id) {
      var i :| at.sent <= i < |at.batch| && at.batch[i].id == id;
      assert Messages(rest)[i - at.sent].id == id;
    }
    if Seen(Messages(rest), id) {
      var i :| 0 <= i < |rest| && Messages(rest)[i].id == id;
      assert at.batch[at.sent + i].id == id;
    }
  }

  /** What has been heard once the rest of the batch has been published. */
  lemma HeardAfter(p: Protocol, q: Protocol, row: OutboxRow)
    requires p.at.Sending? && p.at.sent <= |p.at.batch| && q.log == p.log + Messages(p.at.batch[p.at.sent..])
    ensures Heard(q, row) <==> Heard(p, row) || Unsent(p.at, row.id)
  {
    SeenIff(p.log, row.id);
    SeenIff(q.log, row.id);
    SeenInBoth(p.log, Messages(p.at.batch[p.at.sent..]), row.id);
    SeenInRest(p.at, row.id);
  }

  /** The rest of the batch is published, and what it did not carry is heard after it. */
  lemma OutsideIsSaid(limit: nat, p: Protocol, about: string, c: Status, j: nat)
    requires limit > 0 && Sound(p) && AlwaysSays(limit, p, about, c) && j < |p.rows| && FurthestOutside(p, about, j)
    ensures p.rows[j].status == c
  {
    if p.at == Idle {
      FurthestIsSaid(limit, p, about, c, j);
    } else {
      var batch := FinishBatch(limit, p);
      var q := From(limit, p, batch);
      ContinuesSound(limit, p, batch);
      forall i | 0 <= i < |p.rows| ensures Heard(q, p.rows[i]) <==> Heard(p, p.rows[i]) || Unsent(p.at, p.rows[i].id) {
        HeardAfter(p, q, p.rows[i]);
      }
      assert forall i | j < i < |p.rows| && Waits(p, about, i) :: Unsent(p.at, p.rows[i].id);
      var steps := EndsWith(limit, q, j);
      FromFrom(limit, p, batch, steps);
      assert OnlyPublishes(batch + steps);
    }
  }

  lemma SettledIsSaid(limit: nat, p: Protocol, about: string, c: Status)
    requires limit > 0 && Sound(p) && AlwaysSays(limit, p, about, c) && NothingWaits(p, about)
    ensures Says(LastAbout(Delivered(p.log), about), c)
  {
    var crash := Extend(limit, p, [], Crash);
    var drain := Drain(limit, From(limit, p, crash));
    FromFrom(limit, p, crash, drain);
    NothingMoreEver(limit, p, about, crash + drain);
  }

  /** However the publisher goes on, the drained log states status `c` last about a document exactly when everything
      that can be heard last about it does. */
  lemma SaysIff(limit: nat, p: Protocol, about: string, c: Status)
    requires limit > 0 && Sound(p) && BatchInPlace(p)
    ensures AlwaysSays(limit, p, about, c) <==> CanOnlySay(p, about, c)
  {
    if CanOnlySay(p, about, c) {
      forall steps | OnlyPublishes(steps) && Drained(From(limit, p, steps))
        ensures Says(LastAbout(Delivered(From(limit, p, steps).log), about), c)
      {
        ContinuationSays(limit, p, about, c, steps);
        DrainedSays(From(limit, p, steps), about, c);
      }
    }
    if AlwaysSays(limit, p, about, c) {
      if NothingWaits(p, about) {
        SettledIsSaid(limit, p, about, c);
      } else {
        forall j | 0 <= j < |p.rows| && MayBeLast(p, about, j) ensures p.rows[j].status == c {
          if Furthest(p, about, j) {
            FurthestIsSaid(limit, p, about, c, j);
          } else {
            OutsideIsSaid(limit, p, about, c, j);
          }
        }
      }
    }
  }

  lemma DrainedSays(p: Protocol, about: string, c: Status)
    requires Sound(p) && Drained(p) && CanOnlySay(p, about, c)
    ensures Says(LastAbout(Delivered(p.log), about), c)
  {
    forall i | 0 <= i < |p.rows| ensures !Waits(p, about, i) { PublishedIsHeard(p, p.rows[i]); }
  }
}
