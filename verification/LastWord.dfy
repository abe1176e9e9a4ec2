/** Which message about a document the consumer sees last, when rows about it may commit out of created_at order. */
module LastWord {
  import opened Domain
  import opened Tables
  import opened Records
  import opened Outbox

  /** The last message about a document. */
  function LastAbout(messages: seq<Message>, id: string): Option<Message> {
    if messages == [] then None
    else if messages[|messages| - 1].aggregateID == id then Some(messages[|messages| - 1])
    else LastAbout(messages[..|messages| - 1], id)
  }

  lemma LastAboutAppend(messages: seq<Message>, m: Message, id: string)
    ensures LastAbout(messages + [m], id) == if m.aggregateID == id then Some(m) else LastAbout(messages, id)
  {
    assert (messages + [m])[..|messages|] == messages;
  }

  predicate Heard(p: Protocol, row: OutboxRow) { Seen(Delivered(p.log), row.id) }

  /** Every row about the document at place `k` or behind it has been delivered. */
  predicate NothingWaitsBehind(p: Protocol, k: nat, about: string)
    requires k <= |p.rows|
  {
    forall i | k <= i < |p.rows| && p.rows[i].aggregateID == about :: Heard(p, p.rows[i])
  }

  ghost predicate NothingWaitsBehindIt(p: Protocol, m: Message) {
    forall i, j | 0 <= j < i < |p.rows| && p.rows[j].id == m.id && p.rows[i].aggregateID == m.aggregateID ::
      Heard(p, p.rows[i])
  }

  /** In the batch in flight the other rows about the document come first, or have been delivered. */
  ghost predicate LastInBatch(p: Protocol, m: Message) {
    p.at.Sending? ==>
      forall j | p.at.sent <= j < |p.at.batch| && p.at.batch[j].id == m.id ::
        forall row | row in p.rows && row.aggregateID == m.aggregateID && row.id != m.id ::
          Heard(p, row) || ComesBefore(p.at, j, row.id)
  }

  predicate ComesBefore(at: Position, j: nat, id: string)
    requires at.Sending? && j <= |at.batch|
  {
    exists i | at.sent <= i < j :: at.batch[i].id == id
  }

  ghost predicate SaidLast(p: Protocol, m: Message) {
    Seen(Delivered(p.log), m.id) ==>
      && (forall row | row in p.rows && row.aggregateID == m.aggregateID :: Heard(p, row))
      && LastAbout(Delivered(p.log), m.aggregateID) == Some(m)
  }

  /** Message `m` is, or will be, the last the consumer hears about its document. */
  ghost predicate HasLastWord(p: Protocol, m: Message) {
    RowFor(p.rows, m) && NothingWaitsBehindIt(p, m) && LastInBatch(p, m) && SaidLast(p, m)
  }

  // ---- The publisher keeps it ----

  /** What one publish adds to the delivered messages. */
  lemma HearsOne(limit: nat, p: Protocol, copies: nat, acknowledged: bool)
    requires Sound(p) && Next(limit, p, Publish(copies, acknowledged)) != p
    ensures var m, d := MessageOf(p.at.batch[p.at.sent]), Delivered(p.log);
            && RowFor(p.rows, m)
            && Delivered(Next(limit, p, Publish(copies, acknowledged)).log) ==
                if copies == 0 || Seen(d, m.id) then d else d + [m]
  {
    assert InFlight(p, p.at.sent);
    DeliveredCopies(p.log, MessageOf(p.at.batch[p.at.sent]), copies);
  }

  lemma SeenMore(messages: seq<Message>, m: Message, id: string)
    ensures Seen(messages + [m], id) <==> Seen(messages, id) || m.id == id
  {
    assert m in messages + [m];
    assert forall x | x in messages :: x in messages + [m];
  }

  lemma PublishKeeps(limit: nat, p: Protocol, m: Message, copies: nat, acknowledged: bool)
    requires Sound(p) && HasLastWord(p, m)
    ensures HasLastWord(Next(limit, p, Publish(copies, acknowledged)), m)
  {
    var q := Next(limit, p, Publish(copies, acknowledged));
    if q != p {
      var b, d := p.at.batch[p.at.sent], Delivered(p.log);
      HearsOne(limit, p, copies, acknowledged);
      forall row
        ensures Heard(q, row) <==> Heard(p, row) || (copies > 0 && b.id == row.id)
      {
        SeenMore(d, MessageOf(b), row.id);
      }
      PublishSaysLast(p, q, m);
      if q.at.Sending? { PublishKeepsBatch(p, q, m); }
    }
  }

  /** The message itself can only be published when every other about its document has been delivered. */
  lemma PublishSaysLast(p: Protocol, q: Protocol, m: Message)
    requires Sound(p) && HasLastWord(p, m) && q.rows == p.rows && p.at.Sending? && p.at.sent < |p.at.batch|
    requires var b, d := MessageOf(p.at.batch[p.at.sent]), Delivered(p.log);
             RowFor(p.rows, b) && (Delivered(q.log) == d || (Delivered(q.log) == d + [b] && !Seen(d, b.id)))
    ensures SaidLast(q, m)
  {
    var b, d := MessageOf(p.at.batch[p.at.sent]), Delivered(p.log);
    if Delivered(q.log) != d {
      LastAboutAppend(d, b, m.aggregateID);
      forall row ensures Heard(q, row) <==> Heard(p, row) || b.id == row.id { SeenMore(d, b, row.id); }
      SeenMore(d, b, m.id);
      var r :| r in p.rows && MessageOf(r) == b;
      if b.id == m.id {
        SameMessage(p.rows, r, m);
        assert p.at.batch[p.at.sent].id == m.id;
        assert forall row | row in p.rows && row.aggregateID == m.aggregateID && row.id != m.id :: Heard(p, row);
      }
    }
  }

  lemma PublishKeepsBatch(p: Protocol, q: Protocol, m: Message)
    requires HasLastWord(p, m) && p.at.Sending? && p.at.sent < |p.at.batch|
    requires q.rows == p.rows && q.at == p.at.(sent := p.at.sent + 1)
    requires forall row | Heard(p, row) || p.at.batch[p.at.sent].id == row.id :: Heard(q, row)
    ensures LastInBatch(q, m)
  {
  }

  /** A batch takes the pending rows from the front. */
  lemma {:induction false} BatchTakesFront(rows: seq<OutboxRow>, limit: nat, i: nat, j: nat, b: nat) returns (a: nat)
    requires UniqueIds(rows) && i < j < |rows| && !rows[i].published
    requires b < |Batch(rows, limit)| && Batch(rows, limit)[b].id == rows[j].id
    ensures a < b && Batch(rows, limit)[a] == rows[i]
  {
    if rows[0].published {
      a := BatchTakesFront(rows[1..], limit, i - 1, j - 1, b);
    } else if i == 0 {
      a := 0;
    } else {
      a := BatchTakesFront(rows[1..], limit - 1, i - 1, j - 1, b - 1);
      a := a + 1;
    }
  }

  lemma PublishedIsHeard(p: Protocol, row: OutboxRow)
    requires Sound(p) && row in p.rows && row.published
    ensures Heard(p, row)
  {
    DeliveredOnce(p.log);
    assert MessageOf(row) in p.log;
  }

  lemma SelectKeeps(limit: nat, p: Protocol, m: Message)
    requires Sound(p) && HasLastWord(p, m)
    ensures HasLastWord(Next(limit, p, Select), m)
  {
    var q := Next(limit, p, Select);
    if q != p {
      var batch := Batch(p.rows, limit);
      forall b, row | 0 <= b < |batch| && batch[b].id == m.id
                      && row in p.rows && row.aggregateID == m.aggregateID && row.id != m.id
        ensures Heard(p, row) || ComesBefore(q.at, b, row.id)
      {
        if !Heard(p, row) { WaitingIsBefore(limit, p, m, b, row); }
      }
    }
  }

  lemma WaitingIsBefore(limit: nat, p: Protocol, m: Message, b: nat, row: OutboxRow)
    requires Sound(p) && HasLastWord(p, m) && b < |Batch(p.rows, limit)| && Batch(p.rows, limit)[b].id == m.id
    requires row in p.rows && row.aggregateID == m.aggregateID && row.id != m.id && !Heard(p, row)
    ensures ComesBefore(Sending(Batch(p.rows, limit), 0), b, row.id)
  {
    if row.published { PublishedIsHeard(p, row); }
    var i :| 0 <= i < |p.rows| && p.rows[i] == row;
    var r :| r in p.rows && MessageOf(r) == m;
    var j :| 0 <= j < |p.rows| && p.rows[j] == r;
    assert i < j;
    var a := BatchTakesFront(p.rows, limit, i, j, b);
    assert Batch(p.rows, limit)[a].id == row.id;
  }

  /** Only what the messages say of the rows matters. */
  lemma SameMessagesKeep(p: Protocol, q: Protocol, m: Message)
    requires HasLastWord(p, m) && q.log == p.log && q.at == Idle
    requires |q.rows| == |p.rows| && forall i | 0 <= i < |p.rows| :: MessageOf(q.rows[i]) == MessageOf(p.rows[i])
    ensures HasLastWord(q, m)
  {
    var r :| r in p.rows && MessageOf(r) == m;
    var j :| 0 <= j < |p.rows| && p.rows[j] == r;
    assert q.rows[j] in q.rows && MessageOf(q.rows[j]) == m;
    if Seen(Delivered(q.log), m.id) {
      forall row | row in q.rows && row.aggregateID == m.aggregateID ensures Heard(q, row) {
        var i :| 0 <= i < |q.rows| && q.rows[i] == row;
        assert p.rows[i] in p.rows;
      }
    }
    forall i, k | 0 <= k < i < |q.rows| && q.rows[k].id == m.id && q.rows[i].aggregateID == m.aggregateID
      ensures Heard(q, q.rows[i])
    {
      assert Heard(p, p.rows[i]);
    }
  }

  lemma CommitKeeps(limit: nat, p: Protocol, m: Message, landed: bool)
    requires HasLastWord(p, m)
    ensures HasLastWord(Next(limit, p, CommitBatch(landed)), m)
  {
    var q := Next(limit, p, CommitBatch(landed));
    if q != p { SameMessagesKeep(p, q, m); }
  }

  lemma PublisherKeeps(limit: nat, p: Protocol, m: Message, s: Step)
    requires Sound(p) && HasLastWord(p, m) && !s.Insert?
    ensures HasLastWord(Next(limit, p, s), m)
  {
    match s
    case Select => SelectKeeps(limit, p, m);
    case Publish(copies, acknowledged) => PublishKeeps(limit, p, m, copies, acknowledged);
    case CommitBatch(landed) => CommitKeeps(limit, p, m, landed);
    case Crash =>
  }

  lemma {:induction false} ContinuationKeeps(limit: nat, p: Protocol, m: Message, steps: seq<Step>)
    requires Sound(p) && HasLastWord(p, m) && OnlyPublishes(steps)
    ensures Sound(From(limit, p, steps)) && HasLastWord(From(limit, p, steps), m)
  {
    if steps != [] {
      var init, s := steps[..|steps| - 1], steps[|steps| - 1];
      ContinuationKeeps(limit, p, m, init);
      NextSound(limit, From(limit, p, init), s);
      PublisherKeeps(limit, From(limit, p, init), m, s);
    }
  }

  lemma DrainedIsSaid(p: Protocol, m: Message)
    requires Sound(p) && HasLastWord(p, m) && Drained(p)
    ensures LastAbout(Delivered(p.log), m.aggregateID) == Some(m)
  {
    var r :| r in p.rows && MessageOf(r) == m;
    PublishedIsHeard(p, r);
  }

  // ---- Rows that commit ----

  /** A row about another document takes the last word from nobody. */
  lemma OtherInsertKeeps(limit: nat, p: Protocol, m: Message, k: nat, row: OutboxRow)
    requires Sound(p) && HasLastWord(p, m) && row.aggregateID != m.aggregateID
    ensures HasLastWord(Next(limit, p, Insert(k, row)), m)
  {
    var q := Next(limit, p, Insert(k, row));
    if Inserts(p, k, row) {
      InsertRows(p.rows, k, row);
      assert forall i | 0 <= i < |q.rows| ::
        q.rows[i] == if i < k then p.rows[i] else if i == k then row else p.rows[i - 1];
      forall i, j | 0 <= j < i < |q.rows| && q.rows[j].id == m.id && q.rows[i].aggregateID == m.aggregateID
        ensures Heard(q, q.rows[i])
      {
        OldPlaces(p, k, row, m, i, j);
      }
    }
  }

  lemma OldPlaces(p: Protocol, k: nat, row: OutboxRow, m: Message, i: nat, j: nat)
    requires Inserts(p, k, row) && HasLastWord(p, m) && row.aggregateID != m.aggregateID
    requires var rows := Placed(p.rows, k, row);
             j < i < |rows| && rows[j].id == m.id && rows[i].aggregateID == m.aggregateID
    ensures Seen(Delivered(p.log), Placed(p.rows, k, row)[i].id)
  {
    var r :| r in p.rows && MessageOf(r) == m;
    assert row.id != m.id;
    var i', j' := if i < k then i else i - 1, if j < k then j else j - 1;
    assert Placed(p.rows, k, row)[i] == p.rows[i'] && Placed(p.rows, k, row)[j] == p.rows[j'];
  }

  /** A new row gets the last word when nothing about its document waits behind it. */
  lemma NewLastWord(limit: nat, p: Protocol, k: nat, row: OutboxRow)
    requires Sound(p) && Inserts(p, k, row) && NothingWaitsBehind(p, k, row.aggregateID)
    ensures HasLastWord(Next(limit, p, Insert(k, row)), MessageOf(row))
  {
    var q := Next(limit, p, Insert(k, row));
    InsertRows(p.rows, k, row);
    NewIsUnheard(p, row);
    assert q.rows[k] == row;
    forall i, j | 0 <= j < i < |q.rows| && q.rows[j].id == row.id && q.rows[i].aggregateID == row.aggregateID
      ensures Heard(q, q.rows[i])
    {
      assert j == k;
      assert q.rows[i] == p.rows[i - 1];
    }
  }

  lemma NewIsUnheard(p: Protocol, row: OutboxRow)
    requires Sound(p) && row.id !in IdsOf(p.rows)
    ensures !Heard(p, row)
    ensures p.at.Sending? ==> forall j | 0 <= j < |p.at.batch| :: p.at.batch[j].id != row.id
  {
    DeliveredOnce(p.log);
    if p.at.Sending? { forall j | 0 <= j < |p.at.batch| ensures p.at.batch[j].id != row.id { assert InFlight(p, j); } }
  }

  // ---- When a late row misleads ----

  /** However the publisher goes on, once everything is marked the last message about the document is `m`. */
  ghost predicate AlwaysLast(limit: nat, p: Protocol, m: Message) {
    forall steps | OnlyPublishes(steps) && Drained(From(limit, p, steps)) ::
      LastAbout(Delivered(From(limit, p, steps).log), m.aggregateID) == Some(m)
  }

  lemma {:induction false} LastWaiting(p: Protocol, about: string, k: nat) returns (j: nat)
    requires k < |p.rows| && p.rows[k].aggregateID == about && !Heard(p, p.rows[k])
    ensures k <= j < |p.rows| && p.rows[j].aggregateID == about && !Heard(p, p.rows[j])
    ensures NothingWaitsBehind(p, j + 1, about)
    decreases |p.rows| - k
  {
    if NothingWaitsBehind(p, k + 1, about) {
      j := k;
    } else {
      var i :| k + 1 <= i < |p.rows| && p.rows[i].aggregateID == about && !Heard(p, p.rows[i]);
      j := LastWaiting(p, about, i);
    }
  }

  lemma WaitingGetsLastWord(p: Protocol, j: nat)
    requires UniqueIds(p.rows) && p.at == Idle && j < |p.rows| && !Heard(p, p.rows[j])
    requires NothingWaitsBehind(p, j + 1, p.rows[j].aggregateID)
    ensures HasLastWord(p, MessageOf(p.rows[j]))
  {
    assert p.rows[j] in p.rows;
  }

  /** The publisher is interrupted and then drains the outbox: the row that waits furthest back is heard last. */
  lemma EndsWith(limit: nat, p: Protocol, j: nat) returns (steps: seq<Step>)
    requires limit > 0 && Sound(p) && j < |p.rows| && !Heard(p, p.rows[j])
    requires NothingWaitsBehind(p, j + 1, p.rows[j].aggregateID)
    ensures OnlyPublishes(steps) && Drained(From(limit, p, steps))
    ensures LastAbout(Delivered(From(limit, p, steps).log), p.rows[j].aggregateID) == Some(MessageOf(p.rows[j]))
  {
    var crash := Extend(limit, p, [], Crash);
    var q := From(limit, p, crash);
    var drain := Drain(limit, q);
    FromFrom(limit, p, crash, drain);
    WaitingGetsLastWord(q, j);
    ContinuationKeeps(limit, q, MessageOf(p.rows[j]), drain);
    DrainedIsSaid(From(limit, q, drain), MessageOf(p.rows[j]));
    steps := crash + drain;
  }

  /** After any run, a committing row is the last the consumer hears about its document, however the publisher goes
      on, exactly when every row about the document that is placed behind it has been delivered. */
  lemma LastIffNothingWaitsBehind(limit: nat, p: Protocol, k: nat, row: OutboxRow)
    requires limit > 0 && Sound(p) && Inserts(p, k, row)
    ensures AlwaysLast(limit, Next(limit, p, Insert(k, row)), MessageOf(row)) <==>
              NothingWaitsBehind(p, k, row.aggregateID)
  {
    var q := Next(limit, p, Insert(k, row));
    InsertSound(limit, p, k, row);
    if NothingWaitsBehind(p, k, row.aggregateID) {
      NewLastWord(limit, p, k, row);
      forall steps | OnlyPublishes(steps) && Drained(From(limit, q, steps))
        ensures LastAbout(Delivered(From(limit, q, steps).log), row.aggregateID) == Some(MessageOf(row))
      {
        ContinuationKeeps(limit, q, MessageOf(row), steps);
        DrainedIsSaid(From(limit, q, steps), MessageOf(row));
      }
    } else {
      var i :| k <= i < |p.rows| && p.rows[i].aggregateID == row.aggregateID && !Heard(p, p.rows[i]);
      assert q.rows[i + 1] == p.rows[i] && q.rows[k] == row;
      var j := LastWaiting(q, row.aggregateID, i + 1);
      var steps := EndsWith(limit, q, j);
      assert MessageOf(q.rows[j]).id != row.id;
    }
  }
}
