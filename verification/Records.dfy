/** Runs of committed transactions, in commit order: what keeps the documents, the audit rows and the outbox in step. */
module Records {
  import opened Domain
  import opened AuditChain
  import opened Tables

  datatype Tx =
    | SaveDocumentTx(d: Document, e: AuditEvent, rowID: string, now: nat)
    | SaveStatusTx(d: Document, e: AuditEvent, rowID: string)
    | SaveSignatureTx(g: Signature)
    | SubscriptionTx(u: Update)
    | SaveLinkTx(token: string, documentID: string, expiresAt: nat)
    | UseLinkTx(token: string, now: nat)
    | SaveOtpTx(key: OtpKey, digest: string, expiresAt: nat)
    | ConsumeOtpTx(key: OtpKey)
    | CountFailureTx(key: OtpKey, now: nat)
    | SaveSessionTx(token: string, phone: string, expiresAt: nat)
    | RevokeSessionTx(token: string, now: nat)
    | RevokeUserTx(phone: string, now: nat)
    | PublishTx(ids: set<string>)
    | CleanupTx(now: nat)

  function MarkPublished(outbox: seq<OutboxRow>, ids: set<string>): (r: seq<OutboxRow>)
    ensures |r| == |outbox|
    ensures forall i | 0 <= i < |r| :: r[i] == if outbox[i].id in ids then outbox[i].(published := true) else outbox[i]
  {
    if outbox == [] then []
    else
      var last := outbox[|outbox| - 1];
      MarkPublished(outbox[..|outbox| - 1], ids) + [if last.id in ids then last.(published := true) else last]
  }

  /** The tables after a transaction; a failing one leaves them as they were. */
  function Commit(db: Tables, tx: Tx): Tables {
    match tx
    case SaveDocumentTx(d, e, rowID, now) => OrElse(SaveDocument(db, d, e, rowID, now), db)
    case SaveStatusTx(d, e, rowID) => OrElse(SaveStatus(db, d, e, rowID), db)
    case SaveSignatureTx(g) => OrElse(SaveSignature(db, g), db)
    case SubscriptionTx(u) => OrElse(UpsertSubscription(db, u), db)
    case SaveLinkTx(token, id, expiresAt) => OrElse(SaveSigningLink(db, token, id, expiresAt), db)
    case UseLinkTx(token, now) => OrElse(UseSigningLink(db, token, now), db)
    case SaveOtpTx(key, digest, expiresAt) => SaveOTP(db, key, digest, expiresAt)
    case ConsumeOtpTx(key) => ConsumeOTP(db, key)
    case CountFailureTx(key, now) => CountFailure(db, key, now)
    case SaveSessionTx(token, phone, expiresAt) => OrElse(SaveSession(db, token, phone, expiresAt), db)
    case RevokeSessionTx(token, now) => RevokeSession(db, token, now)
    case RevokeUserTx(phone, now) => RevokeUserSessions(db, phone, now)
    case PublishTx(ids) => db.(outbox := MarkPublished(db.outbox, ids))
    case CleanupTx(now) => CleanupExpired(db, now)
  }

  function OrElse<T>(o: Option<T>, default: T): T { if o.Some? then o.value else default }

  /** The service logs each saved document together with an event about that document. */
  predicate FromService(tx: Tx) {
    match tx
    case SaveDocumentTx(d, e, _, _) => e.documentID == d.id
    case SaveStatusTx(d, e, _) => e.documentID == d.id
    case _ => true
  }

  function After(txs: seq<Tx>): Tables {
    if txs == [] then EMPTY else Commit(After(txs[..|txs| - 1]), txs[|txs| - 1])
  }

  // ---- Record, audit and outbox agree ----

  function RowsOf(outbox: seq<OutboxRow>, id: string): nat {
    if outbox == [] then 0
    else RowsOf(outbox[..|outbox| - 1], id) + if outbox[|outbox| - 1].aggregateID == id then 1 else 0
  }

  /** The status in the last committed outbox row of a document. */
  function Newest(outbox: seq<OutboxRow>, id: string): Option<Status> {
    if outbox == [] then None
    else if outbox[|outbox| - 1].aggregateID == id then Some(outbox[|outbox| - 1].status)
    else Newest(outbox[..|outbox| - 1], id)
  }

  predicate AgreeOn(db: Tables, id: string) {
    && RowsOf(db.outbox, id) == |EventsOf(db.audit, id)|
    && Newest(db.outbox, id) == (if id in db.documents then Some(db.documents[id].status) else None)
    && (id in db.documents ==> db.documents[id].id == id)
  }

  ghost predicate Agree(db: Tables) { forall id :: AgreeOn(db, id) }

  lemma AppendAgrees(db: Tables, t: Tables, d: Document, e: AuditEvent, row: OutboxRow, id: string)
    requires AgreeOn(db, id) && e.documentID == row.aggregateID == d.id && row.status == d.status
    requires t.audit == db.audit + [e] && t.outbox == db.outbox + [row]
    requires t.documents.Keys == db.documents.Keys + {d.id}
    requires id in db.documents && id != d.id ==> t.documents[id] == db.documents[id]
    requires t.documents[d.id].status == d.status && t.documents[d.id].id == d.id
    ensures AgreeOn(t, id)
  {
  }

  lemma {:induction false} MarkingKeepsRows(outbox: seq<OutboxRow>, ids: set<string>, id: string)
    ensures RowsOf(MarkPublished(outbox, ids), id) == RowsOf(outbox, id)
    ensures Newest(MarkPublished(outbox, ids), id) == Newest(outbox, id)
  {
    if outbox != [] {
      var n := |outbox| - 1;
      MarkingKeepsRows(outbox[..n], ids, id);
      assert MarkPublished(outbox, ids)[..n] == MarkPublished(outbox[..n], ids);
    }
  }

  lemma SaveDocumentAgrees(db: Tables, d: Document, e: AuditEvent, rowID: string, now: nat)
    requires Agree(db) && e.documentID == d.id && SaveDocument(db, d, e, rowID, now).Some?
    ensures Agree(SaveDocument(db, d, e, rowID, now).value)
  {
    var t := SaveDocument(db, d, e, rowID, now).value;
    forall id ensures AgreeOn(t, id) { AppendAgrees(db, t, d, e, t.outbox[|db.outbox|], id); }
  }

  lemma SaveStatusAgrees(db: Tables, d: Document, e: AuditEvent, rowID: string)
    requires Agree(db) && e.documentID == d.id && SaveStatus(db, d, e, rowID).Some?
    ensures Agree(SaveStatus(db, d, e, rowID).value)
  {
    var t := SaveStatus(db, d, e, rowID).value;
    assert AgreeOn(db, d.id);
    forall id ensures AgreeOn(t, id) { AppendAgrees(db, t, d, e, t.outbox[|db.outbox|], id); }
  }

  lemma CommitAgrees(db: Tables, tx: Tx)
    requires Agree(db) && FromService(tx)
    ensures Agree(Commit(db, tx))
  {
    var t := Commit(db, tx);
    if tx.SaveDocumentTx? && SaveDocument(db, tx.d, tx.e, tx.rowID, tx.now).Some? {
      SaveDocumentAgrees(db, tx.d, tx.e, tx.rowID, tx.now);
    } else if tx.SaveStatusTx? && SaveStatus(db, tx.d, tx.e, tx.rowID).Some? {
      SaveStatusAgrees(db, tx.d, tx.e, tx.rowID);
    } else {
      forall id ensures AgreeOn(t, id) {
        assert AgreeOn(db, id);
        if tx.PublishTx? { MarkingKeepsRows(db.outbox, tx.ids, id); }
      }
    }
  }

  /** After any run of transactions, failed ones included, each document has as many outbox rows as audit rows
      and its last committed outbox row carries its current status. */
  lemma {:induction false} RecordsAgree(txs: seq<Tx>)
    requires forall tx | tx in txs :: FromService(tx)
    ensures Agree(After(txs))
  {
    if txs != [] {
      RecordsAgree(txs[..|txs| - 1]);
      CommitAgrees(After(txs[..|txs| - 1]), txs[|txs| - 1]);
    }
  }
}
