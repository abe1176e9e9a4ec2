/** The repository as the source runs it: every transaction works on its own copy statement by statement, and
    replaces the database only when it commits. A fault makes one statement fail, or loses the answer to a commit
    that has landed. */
module Repository {
  import opened Domain
  import opened AuditChain
  import opened Billing
  import C = Cleanup
  import opened T = Tables
  import R = Records
  import O = Outbox

  datatype Fault = Healthy | FailsAt(statement: nat) | CommitLost

  /** What one publish does: how many copies reach the log, and whether it is reported as a success. */
  datatype Delivery = Delivery(copies: nat, acknowledged: bool)

  /** What is reported as published has reached the log. */
  ghost predicate Honest(deliver: nat -> Delivery) { forall i :: deliver(i).acknowledged ==> deliver(i).copies > 0 }

  ghost predicate Reliable(deliver: nat -> Delivery) { forall i :: deliver(i).acknowledged }

  // ---- The rows, column by column ----

  /** A subscription that pays for one more document: the plans start and business have limits of 50 and 500. */
  predicate Payable(s: Subscription, now: nat) {
    && (s.status == "active" || s.status == "trial") && now < s.endsAt
    && (s.plan == "start" ==> s.used < 50) && (s.plan == "business" ==> s.used < 500)
  }

  function Charged(db: Tables, phone: string): Tables
    requires phone in db.subscriptions
  {
    var s := db.subscriptions[phone];
    db.(subscriptions := db.subscriptions[phone := Subscription(s.plan, s.status, s.used + 1, s.endsAt)])
  }

  /** No audit row has the event's identifier or hash. */
  predicate NewEvent(audit: seq<AuditEvent>, e: AuditEvent) {
    forall x | x in audit :: x.id != e.id && x.hash != e.hash
  }

  /** The row is the document, with the creation instant cut to microseconds. */
  predicate InMicroseconds(d: Document, row: Document) {
    && row == d.(createdAt := row.createdAt)
    && row.createdAt % 1000 == 0 && row.createdAt <= d.createdAt < row.createdAt + 1000
  }

  /** One more failure; the fifth expires the code. */
  function OneMoreFailure(row: OtpRow, now: nat): OtpRow {
    OtpRow(row.codeHash, row.attempts + 1, if row.attempts >= 4 then now else row.expiresAt)
  }

  class Broker {
    var log: seq<O.Message>

    constructor ()
      ensures log == []
    {
      log := [];
    }

    method Publish(m: O.Message, d: Delivery) returns (ok: bool)
      modifies this
      ensures log == old(log) + O.Copies(m, d.copies) && ok == d.acknowledged
    {
      log := log + O.Copies(m, d.copies);
      ok := d.acknowledged;
    }
  }

  class Repository {
    var db: Tables

    constructor ()
      ensures db == EMPTY
    {
      db := EMPTY;
    }

    /** Ends a transaction: the only place where the database changes. */
    method Commit(tx: Tables, fault: Fault, statement: nat) returns (call: Call)
      modifies this
      ensures call == if fault == FailsAt(statement) then Failed
                      else if fault == CommitLost then Unacknowledged else Committed
      ensures db == if call == Failed then old(db) else tx
    {
      if fault == FailsAt(statement) {
        return Failed;
      }
      db := tx;
      return if fault == CommitLost then Unacknowledged else Committed;
    }

    method SaveSignature(g: Signature, fault: Fault) returns (call: Call)
      modifies this
      ensures var spec := T.SaveSignature(old(db), g);
              && db == Landed(old(db), spec, call) && (spec.None? ==> call == Failed)
              && (fault == Healthy && spec.Some? ==> call == Committed)
      ensures db == if call == Failed then old(db) else old(db).(signatures := old(db.signatures) + [g])
      ensures fault == Healthy ==> (call == Committed <==> g.documentID in old(db.documents))
    {
      if fault == FailsAt(0) {
        return Failed;
      }
      var tx := db;
      if fault == FailsAt(1) || g.documentID !in tx.documents {
        return Failed;
      }
      tx := tx.(signatures := tx.signatures + [g]);
      call := Commit(tx, fault, 2);
    }

    method ConsumeAllowance(tx: Tables, phone: string, now: nat) returns (r: Option<Tables>)
      ensures r == T.ConsumeAllowance(tx, phone, now)
      ensures r.Some? <==> phone in tx.subscriptions && Payable(tx.subscriptions[phone], now)
      ensures r.Some? ==> r.value == Charged(tx, phone)
    {
      if phone in tx.subscriptions { LimitsOf(tx.subscriptions[phone].plan); }
      if phone !in tx.subscriptions {
        return None;
      }
      var s := tx.subscriptions[phone];
      if !(s.status in {"active", "trial"} && s.endsAt > now) {
        return None;
      }
      var limit := FindLimit(s.plan);
      if limit > 0 && s.used >= limit {
        return None;
      }
      return Some(tx.(subscriptions := tx.subscriptions[phone := s.(used := s.used + 1)]));
    }

    method SaveDocument(d: Document, e: AuditEvent, rowID: string, now: nat, fault: Fault) returns (call: Call)
      modifies this
      ensures var spec := T.SaveDocument(old(db), d, e, rowID, now);
              && db == Landed(old(db), spec, call) && (spec.None? ==> call == Failed)
              && (fault == Healthy && spec.Some? ==> call == Committed)
      ensures call == Failed ==> db == old(db)
      ensures call != Failed ==>
                && d.customerID in old(db.subscriptions) && d.id !in old(db.documents) && d.id in db.documents
                && db == Charged(old(db), d.customerID).(
                           documents := old(db.documents)[d.id := db.documents[d.id]], audit := old(db.audit) + [e],
                           outbox := old(db.outbox) + [OutboxRow(rowID, d.id, "document.created", d.status, false)])
                && InMicroseconds(d, db.documents[d.id])
      ensures fault == Healthy ==>
                (call == Committed <==>
                  && d.customerID in old(db.subscriptions) && Payable(old(db.subscriptions)[d.customerID], now)
                  && d.id !in old(db.documents) && (e.documentID == d.id || e.documentID in old(db.documents))
                  && NewEvent(old(db.audit), e))
    {
      var paid := ConsumeAllowance(db, d.customerID, now);
      if fault == FailsAt(0) || paid.None? {
        return Failed;
      }
      var tx := paid.value;
      if fault == FailsAt(1) || d.id in tx.documents {
        return Failed;
      }
      tx := tx.(documents := tx.documents[d.id := AsStored(d)]);
      var logged := InsertAudit(tx, e);
      if fault == FailsAt(2) || logged.None? {
        return Failed;
      }
      tx := logged.value;
      if fault == FailsAt(3) {
        return Failed;
      }
      tx := tx.(outbox := tx.outbox + [OutboxRow(rowID, d.id, DOCUMENT_CREATED, d.status, false)]);
      call := Commit(tx, fault, 4);
    }

    method SaveStatus(d: Document, e: AuditEvent, rowID: string, fault: Fault) returns (call: Call)
      modifies this
      ensures var spec := T.SaveStatus(old(db), d, e, rowID);
              && db == Landed(old(db), spec, call) && (spec.None? ==> call == Failed)
              && (fault == Healthy && spec.Some? ==> call == Committed)
      ensures call == Failed ==> db == old(db)
      ensures call != Failed && d.id in old(db.documents) ==>
                var row := old(db.documents)[d.id];
                db == old(db).(
                        documents := old(db.documents)[d.id := row.(status := d.status, objectKey := d.objectKey,
                                                                    contentHash := d.contentHash)],
                        audit := old(db.audit) + [e],
                        outbox := old(db.outbox) + [OutboxRow(rowID, d.id, "document.status_changed", d.status, false)])
      ensures fault == Healthy && e.documentID == d.id ==>
                (call == Committed <==> d.id in old(db.documents) && NewEvent(old(db.audit), e))
    {
      if fault == FailsAt(0) {
        return Failed;
      }
      var tx := db;
      if d.id in tx.documents {
        var row := tx.documents[d.id].(status := d.status, objectKey := d.objectKey, contentHash := d.contentHash);
        tx := tx.(documents := tx.documents[d.id := row]);
      }
      var logged := InsertAudit(tx, e);
      if fault == FailsAt(1) || logged.None? {
        return Failed;
      }
      tx := logged.value;
      if fault == FailsAt(2) {
        return Failed;
      }
      tx := tx.(outbox := tx.outbox + [OutboxRow(rowID, d.id, STATUS_CHANGED, d.status, false)]);
      call := Commit(tx, fault, 3);
    }

    method UpsertSubscription(u: Update, fault: Fault) returns (call: Call)
      modifies this
      ensures var spec := T.UpsertSubscription(old(db), u);
              && db == Landed(old(db), spec, call) && (spec.None? ==> call == Failed)
              && (fault == Healthy && spec.Some? ==> call == Committed)
      ensures call == Failed ==> db == old(db)
      ensures call != Failed ==>
                var before := old(db.subscriptions);
                var kept := u.phone in before && before[u.phone].plan == u.plan && before[u.phone].endsAt == u.endsAt;
                db == old(db).(subscriptions := before[u.phone :=
                                 Subscription(u.plan, u.status, if kept then before[u.phone].used else 0, u.endsAt)])
      ensures fault == Healthy ==>
                (call == Committed <==> u.plan in {"start", "business", "enterprise"}
                                        && u.status in {"active", "past_due", "cancelled", "trial"})
    {
      var limit := FindLimit(u.plan);
      KnownPlans(u.plan);
      if (limit == 0 && u.plan != "enterprise") || !ValidStatus(u.status) || fault == FailsAt(0) {
        return Failed;
      }
      var tx := db;
      var row := Subscription(u.plan, u.status, 0, u.endsAt);
      if u.phone in tx.subscriptions {
        var existing := tx.subscriptions[u.phone];
        if !(existing.plan != u.plan || existing.endsAt != u.endsAt) {
          row := row.(used := existing.used);
        }
      }
      tx := tx.(subscriptions := tx.subscriptions[u.phone := row]);
      call := Commit(tx, fault, 1);
    }

    /** A single statement: the row must be there and unused. */
    method UseSigningLink(token: string, now: nat, fault: Fault) returns (call: Call)
      modifies this
      ensures var spec := T.UseSigningLink(old(db), token, now);
              && db == Landed(old(db), spec, call) && (spec.None? ==> call == Failed)
              && (fault == Healthy && spec.Some? ==> call == Committed)
      ensures call == Failed ==> db == old(db)
      ensures call != Failed ==>
                && token in old(db.links)
                && db == old(db).(links := old(db.links)[token := old(db.links)[token].(usedAt := Some(now))])
      ensures fault == Healthy ==> (call == Committed <==> token in old(db.links) && old(db.links)[token].usedAt.None?)
    {
      if token !in db.links || db.links[token].usedAt.Some? {
        return Failed;
      }
      call := Commit(db.(links := db.links[token := db.links[token].(usedAt := Some(now))]), fault, 0);
    }

    /** Two statements, each its own transaction with its own outcome; the error of either is the caller's. A digest
        is reported wrong only after its failure has been counted, and right only after the row is gone. */
    method ValidateOTP(key: OtpKey, digest: string, now: nat, deletion: Call, update: Call) returns (r: Option<bool>)
      modifies this
      ensures r.Some? && deletion == update == Committed ==> (db, r.value) == T.ValidateOTP(old(db), key, digest, now)
      ensures var there := key in old(db.otp) && now < old(db.otp)[key].expiresAt;
              var matched := there && old(db.otp)[key].codeHash == digest;
              && (r == Some(true) <==> deletion == Committed && matched)
              && (r == Some(false) <==> deletion == Committed && update == Committed && !matched)
              && db == (if matched then if deletion == Failed then old(db) else old(db).(otp := old(db.otp) - {key})
                        else if !there || deletion != Committed || update == Failed then old(db)
                        else old(db).(otp := old(db.otp)[key := OneMoreFailure(old(db.otp)[key], now)]))
    {
      var deleted := 0;
      if deletion != Failed && key in db.otp && db.otp[key].codeHash == digest && db.otp[key].expiresAt > now {
        db := db.(otp := db.otp - {key});
        deleted := 1;
      }
      if deletion != Committed {
        return None;
      }
      if deleted == 1 {
        return Some(true);
      }
      if update != Failed && key in db.otp && db.otp[key].expiresAt > now {
        var row := db.otp[key];
        var failures := row.attempts + 1;
        var expiry := if failures >= MAX_ATTEMPTS then now else row.expiresAt;
        db := db.(otp := db.otp[key := row.(attempts := failures, expiresAt := expiry)]);
      }
      return if update == Committed then Some(false) else None;
    }

    /** Three deletions in one transaction. */
    method CleanupExpired(now: nat, fault: Fault) returns (call: Call)
      modifies this
      ensures db == if call == Failed then old(db) else T.CleanupExpired(old(db), now)
      ensures fault == Healthy ==> call == Committed
      ensures call != Failed ==> C.Cleaned(old(db), db, now)
    {
      var tx := db;
      for q := 0 to 3
        invariant db == old(db)
        invariant q <= 3
        invariant var all := T.CleanupExpired(old(db), now);
                  tx == old(db).(otp := if q > 0 then all.otp else old(db).otp,
                                 links := if q > 1 then all.links else old(db).links,
                                 sessions := if q > 2 then all.sessions else old(db).sessions)
      {
        if fault == FailsAt(q) {
          return Failed;
        }
        if q == 0 {
          tx := tx.(otp := map k | k in tx.otp && !DeadOtp(tx.otp[k], now) :: tx.otp[k]);
        } else if q == 1 {
          tx := tx.(links := map t | t in tx.links && !DeadLink(tx.links[t], now) :: tx.links[t]);
        } else {
          tx := tx.(sessions := map t | t in tx.sessions && !DeadSession(tx.sessions[t], now) :: tx.sessions[t]);
        }
      }
      C.CleanupCleans(db, now);
      call := Commit(tx, fault, 3);
    }

    /** The loop over a batch: publish a message, then mark its row in the open transaction. */
    method SendBatch(broker: Broker, limit: nat, batch: seq<OutboxRow>, deliver: nat -> Delivery, fault: Fault,
                     ghost start: O.Protocol, ghost before: seq<O.Step>, ghost done: nat)
      returns (ok: bool, tx: seq<OutboxRow>, ghost steps: seq<O.Step>)
      requires Honest(deliver)
      requires O.From(limit, start, before) == O.Protocol(db.outbox, broker.log, O.Sending(batch, 0), done)
      modifies broker
      ensures O.From(limit, start, steps) ==
                O.Protocol(db.outbox, broker.log, if ok then O.Sending(batch, |batch|) else O.Idle, done)
      ensures O.OnlyPublishes(before) ==> O.OnlyPublishes(steps)
      ensures ok ==> tx == R.MarkPublished(db.outbox, O.IdsOf(batch))
      ensures fault == Healthy && Reliable(deliver) ==> ok
    {
      tx := db.outbox;
      steps := before;
      var i := 0;
      while i < |batch|
        invariant 0 <= i <= |batch| && tx == R.MarkPublished(db.outbox, O.IdsOf(batch[..i]))
        invariant O.From(limit, start, steps) == O.Protocol(db.outbox, broker.log, O.Sending(batch, i), done)
        invariant O.OnlyPublishes(before) ==> O.OnlyPublishes(steps)
      {
        var d := deliver(i);
        var published := broker.Publish(O.MessageOf(batch[i]), d);
        steps := Published(limit, start, steps, batch, i, d, fault == FailsAt(i + 1));
        if !published {
          return false, tx, steps;
        }
        if fault == FailsAt(i + 1) {
          return false, tx, steps;
        }
        tx := R.MarkPublished(tx, {batch[i].id});
        MarkOneMore(db.outbox, batch, i);
        i := i + 1;
      }
      assert batch[..i] == batch;
      ok := true;
    }

    /** One pass of the publisher. Whatever goes wrong, it moves the outbox and the log as some steps of the
        publishing protocol do; a pass without faults publishes and marks the whole batch. */
    method PublishPending(broker: Broker, limit: nat, deliver: nat -> Delivery, fault: Fault, ghost done: nat)
      returns (sent: Option<nat>, ghost steps: seq<O.Step>)
      requires Honest(deliver)
      modifies this, broker
      ensures db == old(db).(outbox := db.outbox)
      ensures var p := O.From(limit, O.Protocol(old(db.outbox), old(broker.log), O.Idle, done), steps);
              p.rows == db.outbox && p.log == broker.log && p.at == O.Idle && O.OnlyPublishes(steps)
      ensures fault == Healthy && Reliable(deliver) ==> sent.Some?
      ensures var batch := O.Batch(old(db.outbox), limit);
              && (db.outbox == old(db.outbox) || db.outbox == R.MarkPublished(old(db.outbox), O.IdsOf(batch)))
              && (sent.Some? ==> sent.value == |batch| && db.outbox == R.MarkPublished(old(db.outbox), O.IdsOf(batch)))
    {
      ghost var start := O.Protocol(db.outbox, broker.log, O.Idle, done);
      steps, sent := [], None;
      if fault == FailsAt(0) {
        return;
      }
      var batch := O.Batch(db.outbox, limit);
      steps := O.Extend(limit, start, steps, O.Select);
      var ok, tx;
      ok, tx, steps := SendBatch(broker, limit, batch, deliver, fault, start, steps, done);
      if !ok {
        return;
      }
      if fault == FailsAt(|batch| + 1) {
        steps := O.Extend(limit, start, steps, O.CommitBatch(false));
        return;
      }
      db := db.(outbox := tx);
      steps := O.Extend(limit, start, steps, O.CommitBatch(true));
      if fault != CommitLost {
        sent := Some(|batch|);
      }
    }
  }

  const BATCH_SIZE: nat := 50

  ghost predicate NothingFails(deliver: (nat, nat) -> Delivery, fault: nat -> Fault) {
    (forall r :: fault(r) == Healthy) && (forall r, i :: deliver(r, i).acknowledged)
  }

  /** `rounds` rounds of the publisher's endless loop, over an outbox nobody writes to. Whatever fails, the rounds
      are steps of the publishing protocol; when nothing does, they mark everything pending, 50 rows a round. */
  method PublishLoop(repository: Repository, broker: Broker, rounds: nat, deliver: (nat, nat) -> Delivery,
                     fault: nat -> Fault, ghost done: nat)
    returns (ghost steps: seq<O.Step>)
    requires forall r, i :: deliver(r, i).acknowledged ==> deliver(r, i).copies > 0
    requires O.UniqueIds(repository.db.outbox)
    modifies repository, broker
    ensures repository.db == old(repository.db).(outbox := repository.db.outbox)
    ensures var p := O.From(50, O.Protocol(old(repository.db.outbox), old(broker.log), O.Idle, done), steps);
            p.rows == repository.db.outbox && p.log == broker.log && p.at == O.Idle && O.OnlyPublishes(steps)
    ensures NothingFails(deliver, fault) && |O.Pending(old(repository.db.outbox))| <= rounds * 50 ==>
              O.Pending(repository.db.outbox) == []
  {
    ghost var start := O.Protocol(repository.db.outbox, broker.log, O.Idle, done);
    ghost var p := start;
    steps := [];
    for round := 0 to rounds
      invariant p == O.From(BATCH_SIZE, start, steps) && p.rows == repository.db.outbox && p.log == broker.log
      invariant p.at == O.Idle
      invariant repository.db == old(repository.db).(outbox := repository.db.outbox)
      invariant O.UniqueIds(repository.db.outbox)
      invariant O.OnlyPublishes(steps)
      invariant NothingFails(deliver, fault) ==>
                  |O.Pending(repository.db.outbox)| <= Left(|O.Pending(old(repository.db.outbox))|, round)
    {
      ghost var before := repository.db.outbox;
      var sent;
      ghost var pass;
      sent, pass := repository.PublishPending(broker, BATCH_SIZE, (i: nat) => deliver(round, i), fault(round), p.done);
      O.FromFrom(BATCH_SIZE, start, steps, pass);
      steps := steps + pass;
      p := O.From(BATCH_SIZE, start, steps);
      O.PassDrains(before, BATCH_SIZE);
    }
  }

  ghost function Left(pending: nat, rounds: nat): nat {
    if pending <= rounds * BATCH_SIZE then 0 else pending - rounds * BATCH_SIZE
  }

  /** One publish, and the failure of its mark if that fails, as steps of the protocol. */
  lemma Published(limit: nat, start: O.Protocol, steps: seq<O.Step>, batch: seq<OutboxRow>, i: nat, d: Delivery,
                  markFails: bool) returns (more: seq<O.Step>)
    requires i < |batch| && (d.acknowledged ==> d.copies > 0) && O.From(limit, start, steps).at == O.Sending(batch, i)
    ensures O.OnlyPublishes(steps) ==> O.OnlyPublishes(more)
    ensures var p := O.From(limit, start, steps);
            O.From(limit, start, more) ==
              p.(log := p.log + O.Copies(O.MessageOf(batch[i]), d.copies),
                 at := if d.acknowledged && !markFails then O.Sending(batch, i + 1) else O.Idle)
  {
    more := O.Extend(limit, start, steps, O.Publish(d.copies, d.acknowledged));
    if markFails { more := O.Extend(limit, start, more, O.Crash); }
  }

  lemma MarkOneMore(rows: seq<OutboxRow>, batch: seq<OutboxRow>, i: nat)
    requires i < |batch|
    ensures R.MarkPublished(R.MarkPublished(rows, O.IdsOf(batch[..i])), {batch[i].id})
            == R.MarkPublished(rows, O.IdsOf(batch[..i + 1]))
  {
  }
}
