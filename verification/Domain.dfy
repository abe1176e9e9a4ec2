/** Entities shared by every module, and the outside functions the service calls.

    Go strings and byte slices are both modelled as `seq<char>`, one character a byte. */
module Domain {

  datatype Option<+T> = None | Some(value: T)

  datatype Result<+T> = Ok(value: T) | Err(error: Error)

  /** The service's error returns, one constructor for each distinct message. */
  datatype Error =
    | MissingField | TooLarge | UnknownTemplate | NotFound | NotDraft | EmptyObject
    | InvalidLink | InvalidOtp | MissingIdentity | WrongContractor | NotSent
    | PepRequired | InvalidCompletion | NoFile | ObjectMissing | IntegrityFailed

  predicate IsHex(c: char) { '0' <= c <= '9' || 'a' <= c <= 'f' }

  predicate AllHex(s: string) { forall i | 0 <= i < |s| :: IsHex(s[i]) }

  predicate IsDigest(s: string) { |s| == 64 && AllHex(s) }

  /** A SHA-256 digest in lower-case hexadecimal. */
  type Digest = s: string | IsDigest(s) witness seq(64, _ => '0')

  predicate IsStamp(s: string) { |s| > 4 && '-' !in s[..4] && s[4] == '-' }

  /** A rendered instant: a four-digit year, a dash, and the rest of the date and time. */
  type Stamp = s: string | IsStamp(s) witness "2026-"

  /** What the service takes from its libraries: SHA-256 in hexadecimal and the rendering of an instant.
      Every result below holds for any such pair of functions; where collisions matter, a hypothesis
      names the finitely many inputs on which the hash must not collide. */
  datatype Env = Env(sha: string -> Digest, render: nat -> Stamp)

  datatype Status = Draft | Sent | PepSigned | AwaitingUkep | Completed

  function Rank(s: Status): nat {
    match s
    case Draft => 0
    case Sent => 1
    case PepSigned => 2
    case AwaitingUkep => 3
    case Completed => 4
  }

  datatype SignatureType = Pep | Ukep

  datatype Document = Document(
    id: string, title: string, template: string, templateVersion: string,
    customerID: string, contractorPhone: string, contentHash: string, objectKey: string,
    amountKopecks: int, status: Status, agreementVersion: string, createdAt: nat)

  datatype Signature = Signature(
    documentID: string, userID: string, kind: SignatureType,
    evidenceHash: string, providerReference: string, signedAt: nat)

  datatype AuditEvent = AuditEvent(
    id: string, documentID: string, actorID: string, action: string,
    payloadHash: string, previousHash: string, hash: string, occurredAt: nat)

  const ID_LENGTH: nat := 36

  const CREATED := "document.created"
  const UPLOADED := "document.file.uploaded"
  const SENT := "document.sent"
  const CHALLENGED := "pep.challenge.requested"
  const AGREED := "edo.agreement.accepted"
  const PEP_SIGNED := "pep.signed"
  const UKEP_REQUESTED := "ukep.requested"
  const UKEP_SIGNED := "ukep.signed"

  predicate IsParticipant(d: Document, actor: string) {
    actor != "" && (actor == d.customerID || actor == d.contractorPhone)
  }

  // ---- What signatures attest ----

  /** What a PEP is evidence of: the content, the contractor and the agreement, from where and when. */
  function PepText(env: Env, d: Document, contractor: string, ip: string, agent: string, at: nat): string {
    d.contentHash + contractor + d.agreementVersion + ip + agent + env.render(at)
  }

  function PepEvidence(env: Env, d: Document, contractor: string, ip: string, agent: string, at: nat): Digest {
    env.sha(PepText(env, d, contractor, ip, agent, at))
  }

  /** What a UKEP is evidence of: the content and the reference of the provider. */
  function UkepText(d: Document, reference: string): string { d.contentHash + reference }

  function UkepEvidence(env: Env, d: Document, reference: string): Digest { env.sha(UkepText(d, reference)) }

  /** The contractor's signature over the content the document has. */
  ghost predicate IsPepOf(env: Env, g: Signature, d: Document) {
    && g.kind == Pep && g.userID == d.contractorPhone
    && exists ip, agent :: g.evidenceHash == PepEvidence(env, d, g.userID, ip, agent, g.signedAt)
  }

  /** The customer's qualified signature over the content the document has. */
  predicate IsUkepOf(env: Env, g: Signature, d: Document) {
    g.kind == Ukep && g.userID == d.customerID && g.evidenceHash == UkepEvidence(env, d, g.providerReference)
  }

  /** A PEP attests every version of the document with the same content, agreement and contractor. */
  lemma PepStays(env: Env, g: Signature, d: Document, f: Document)
    requires IsPepOf(env, g, d)
    requires f.contentHash == d.contentHash && f.agreementVersion == d.agreementVersion
    requires f.contractorPhone == d.contractorPhone
    ensures IsPepOf(env, g, f)
  {
    var ip, agent :| g.evidenceHash == PepEvidence(env, d, g.userID, ip, agent, g.signedAt);
    assert PepEvidence(env, f, g.userID, ip, agent, g.signedAt) == g.evidenceHash;
  }
}
