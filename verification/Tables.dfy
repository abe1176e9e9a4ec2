/** The database as values: its tables, and each transaction of the repository as one function that gives the
    committed tables, or None when a constraint or a check makes the transaction fail.

    A new outbox row is appended; where it stands in created_at order is up to the runs that use the tables.
    Users are identified with their unique phone, and rows keyed by a token or subject hash with what is hashed. */
module Tables {
  import opened Domain
  import opened Billing
  import opened AuditChain

  datatype OutboxRow = OutboxRow(id: string, aggregateID: string, kind: string, status: Status, published: bool)
  datatype LinkRow = LinkRow(documentID: string, expiresAt: nat, usedAt: Option<nat>)
  datatype OtpRow = OtpRow(codeHash: string, attempts: nat, expiresAt: nat)
  datatype SessionRow = SessionRow(phone: string, expiresAt: nat, revokedAt: Option<nat>)
  datatype Subscription = Subscription(plan: string, status: string, used: nat, endsAt: nat)

  /** An OTP row is keyed by its subject and purpose. */
  type OtpKey = (string, string)

  datatype Tables = Tables(
    documents: map<string, Document>, signatures: seq<Signature>, audit: seq<AuditEvent>, outbox: seq<OutboxRow>,
    links: map<string, LinkRow>, otp: map<OtpKey, OtpRow>, sessions: map<string, SessionRow>,
    subscriptions: map<string, Subscription>)

  const EMPTY := Tables(map[], [], [], [], map[], map[], map[], map[])

  const DOCUMENT_CREATED := "document.created"
  const STATUS_CHANGED := "document.status_changed"

  /** How a call ends: committed and reported, committed without the caller learning of it, or failed. */
  datatype Call = Committed | Unacknowledged | Failed

  /** What a call leaves in the database: nothing if it fails, also by a violated constraint. */
  function Landed(db: Tables, result: Option<Tables>, call: Call): Tables {
    if call == Failed || result.None? then db else result.value
  }

  function Succeeds(result: Option<Tables>, call: Call): bool { call == Committed && result.Some? }

  // ---- Documents, signatures, audit and outbox ----

  function SaveSignature(db: Tables, g: Signature): Option<Tables> {
    if g.documentID !in db.documents then None else Some(db.(signatures := db.signatures + [g]))
  }

  /** Primary key, unique event hash and reference to the document. */
  function InsertAudit(db: Tables, e: AuditEvent): Option<Tables> {
    if e.documentID !in db.documents || exists x | x in db.audit :: x.id == e.id || x.hash == e.hash then None
    else Some(db.(audit := db.audit + [e]))
  }

  function InsertOutbox(db: Tables, rowID: string, d: Document, kind: string): Tables {
    db.(outbox := db.outbox + [OutboxRow(rowID, d.id, kind, d.status, false)])
  }

  predicate Entitled(s: Subscription, now: nat) { s.status in {"active", "trial"} && s.endsAt > now }

  predicate Exhausted(s: Subscription) { DocumentLimit(s.plan) > 0 && s.used >= DocumentLimit(s.plan) }

  function ConsumeAllowance(db: Tables, phone: string, now: nat): Option<Tables> {
    if phone !in db.subscriptions then None
    else
      var s := db.subscriptions[phone];
      if !Entitled(s, now) || Exhausted(s) then None
      else Some(db.(subscriptions := db.subscriptions[phone := s.(used := s.used + 1)]))
  }

  /** A timestamptz column keeps microseconds; what is finer is dropped when the document is first stored. */
  function AsStored(d: Document): Document { d.(createdAt := d.createdAt / 1000 * 1000) }

  function SaveDocument(db: Tables, d: Document, e: AuditEvent, rowID: string, now: nat): Option<Tables> {
    match ConsumeAllowance(db, d.customerID, now)
    case None => None
    case Some(paid) =>
      if d.id in paid.documents then None
      else match InsertAudit(paid.(documents := paid.documents[d.id := AsStored(d)]), e)
        case None => None
        case Some(logged) => Some(InsertOutbox(logged, rowID, d, DOCUMENT_CREATED))
  }

  /** The columns an UPDATE of the status writes. */
  function UpdateStatus(db: Tables, d: Document): Tables {
    if d.id !in db.documents then db
    else db.(documents := db.documents[d.id :=
               db.documents[d.id].(status := d.status, objectKey := d.objectKey, contentHash := d.contentHash)])
  }

  function SaveStatus(db: Tables, d: Document, e: AuditEvent, rowID: string): Option<Tables> {
    match InsertAudit(UpdateStatus(db, d), e)
    case None => None
    case Some(logged) => Some(InsertOutbox(logged, rowID, d, STATUS_CHANGED))
  }

  function LoadDocument(db: Tables, id: string, actor: string): Option<Document> {
    if id in db.documents && (actor == db.documents[id].customerID || actor == db.documents[id].contractorPhone)
    then Some(db.documents[id]) else None
  }

  // ---- Subscriptions ----

  datatype Update = Update(phone: string, plan: string, status: string, endsAt: nat)

  predicate SameTerms(s: Subscription, u: Update) { s.plan == u.plan && s.endsAt == u.endsAt }

  function UpsertSubscription(db: Tables, u: Update): Option<Tables> {
    if !KnownPlan(u.plan) || !ValidStatus(u.status) then None
    else
      var kept := u.phone in db.subscriptions && SameTerms(db.subscriptions[u.phone], u);
      var used := if kept then db.subscriptions[u.phone].used else 0;
      Some(db.(subscriptions := db.subscriptions[u.phone := Subscription(u.plan, u.status, used, u.endsAt)]))
  }

  // ---- Signing links, one-time codes and sessions ----

  function SaveSigningLink(db: Tables, token: string, documentID: string, expiresAt: nat): Option<Tables> {
    if token in db.links || documentID !in db.documents then None
    else Some(db.(links := db.links[token := LinkRow(documentID, expiresAt, None)]))
  }

  function LoadSigningLink(db: Tables, token: string, now: nat): Option<(string, nat)> {
    if token in db.links && db.links[token].usedAt.None? && db.links[token].expiresAt > now
    then Some((db.links[token].documentID, db.links[token].expiresAt)) else None
  }

  /** None when no unused row matches: the link is reported as already used. */
  function UseSigningLink(db: Tables, token: string, now: nat): Option<Tables> {
    if token in db.links && db.links[token].usedAt.None?
    then Some(db.(links := db.links[token := db.links[token].(usedAt := Some(now))])) else None
  }

  function SaveOTP(db: Tables, key: OtpKey, digest: string, expiresAt: nat): Tables {
    db.(otp := db.otp[key := OtpRow(digest, 0, expiresAt)])
  }

  const MAX_ATTEMPTS: nat := 5

  predicate Live(row: OtpRow, now: nat) { row.expiresAt > now }

  predicate OtpMatches(db: Tables, key: OtpKey, digest: string, now: nat) {
    key in db.otp && db.otp[key].codeHash == digest && Live(db.otp[key], now)
  }

  /** The first statement of a validation: delete the matching live row. */
  function ConsumeOTP(db: Tables, key: OtpKey): Tables {
    db.(otp := db.otp - {key})
  }

  /** The row after one counted failure; the fifth expires it on the spot. */
  function Counted(row: OtpRow, now: nat): OtpRow {
    row.(attempts := row.attempts + 1, expiresAt := if row.attempts + 1 >= MAX_ATTEMPTS then now else row.expiresAt)
  }

  /** The second statement: count a failure against a row that is still live. */
  function CountFailure(db: Tables, key: OtpKey, now: nat): Tables {
    if key in db.otp && Live(db.otp[key], now) then db.(otp := db.otp[key := Counted(db.otp[key], now)]) else db
  }

  function ValidateOTP(db: Tables, key: OtpKey, digest: string, now: nat): (Tables, bool) {
    if OtpMatches(db, key, digest, now) then (ConsumeOTP(db, key), true) else (CountFailure(db, key, now), false)
  }

  function SaveSession(db: Tables, token: string, phone: string, expiresAt: nat): Option<Tables> {
    if token in db.sessions then None
    else Some(db.(sessions := db.sessions[token := SessionRow(phone, expiresAt, None)]))
  }

  function LoadSession(db: Tables, token: string, now: nat): Option<(string, nat)> {
    if token in db.sessions && db.sessions[token].revokedAt.None? && db.sessions[token].expiresAt > now
    then Some((db.sessions[token].phone, db.sessions[token].expiresAt)) else None
  }

  function Revoked(row: SessionRow, now: nat): SessionRow {
    if row.revokedAt.None? then row.(revokedAt := Some(now)) else row
  }

  function RevokeSession(db: Tables, token: string, now: nat): Tables {
    if token !in db.sessions then db
    else db.(sessions := db.sessions[token := Revoked(db.sessions[token], now)])
  }

  function RevokeUserSessions(db: Tables, phone: string, now: nat): Tables {
    db.(sessions := map t | t in db.sessions ::
          if db.sessions[t].phone == phone then Revoked(db.sessions[t], now) else db.sessions[t])
  }

  // ---- Cleanup ----

  const RETENTION: nat := 7 * 24 * 3_600_000_000_000

  predicate Aged(at: Option<nat>, now: nat) { at.Some? && at.value + RETENTION < now }

  predicate DeadOtp(row: OtpRow, now: nat) { row.expiresAt < now }
  predicate DeadLink(row: LinkRow, now: nat) { row.expiresAt < now || Aged(row.usedAt, now) }
  predicate DeadSession(row: SessionRow, now: nat) { row.expiresAt < now || Aged(row.revokedAt, now) }

  function CleanupExpired(db: Tables, now: nat): Tables {
    db.(otp := map k | k in db.otp && !DeadOtp(db.otp[k], now) :: db.otp[k],
        links := map t | t in db.links && !DeadLink(db.links[t], now) :: db.links[t],
        sessions := map t | t in db.sessions && !DeadSession(db.sessions[t], now) :: db.sessions[t])
  }
}
