/** The document service without persistence, as a state machine: one function per operation and the step
    relation they make up. The class in App.dfy carries the same operations out in place. */
module Service {
  import opened Domain
  import opened AuditChain
  import opened Phone

  const MINUTE: nat := 60_000_000_000
  const LINK_LIFETIME: nat := 48 * 60 * MINUTE
  const OTP_LIFETIME: nat := 10 * MINUTE
  const MAX_TITLE: nat := 300
  const MAX_CONTENT: nat := 1024 * 1024
  const TEMPLATE_VERSIONS: map<string, string> :=
    map["gph-contract" := "1.0", "act" := "1.0", "nda" := "1.0", "guarantee" := "1.0"]

  datatype Link = Link(documentID: string, expiresAt: nat)

  datatype Challenge = Challenge(digest: string, expiresAt: nat)

  datatype State = State(
    docs: map<string, Document>, links: map<string, Link>, challenges: map<string, Challenge>,
    signatures: seq<Signature>, audit: seq<AuditEvent>, objects: map<string, string>)

  datatype Outcome<+T> = Outcome(state: State, result: Result<T>)

  const INITIAL := State(map[], map[], map[], [], [], map[])

  function ObjectKey(id: string): string { "documents/" + id + "/original" }

  /** Stores `d` under `id` and logs one event. */
  function Record(s: State, id: string, d: Document, e: AuditEvent): State {
    s.(docs := s.docs[id := d], audit := s.audit + [e])
  }

  // ---- Operations ----

  datatype Draft = Draft(
    customerID: string, title: string, template: string, phone: string, content: string, agreement: string, amount: int)

  function CreateDocument(env: Env, s: State, x: Draft, id: string, eventID: string, now: nat): Outcome<Document> {
    var phone := Canonical(x.phone);
    if x.customerID == "" || x.title == "" || !ValidPhone(phone) || x.content == "" || x.agreement == "" then
      Outcome(s, Err(MissingField))
    else if |x.title| > MAX_TITLE || |x.content| > MAX_CONTENT then Outcome(s, Err(TooLarge))
    else if x.template !in TEMPLATE_VERSIONS then Outcome(s, Err(UnknownTemplate))
    else
      var d := Document(id, x.title, x.template, TEMPLATE_VERSIONS[x.template], x.customerID, phone,
                        env.sha(x.content), "", x.amount, Status.Draft, x.agreement, now);
      Outcome(Record(s, id, d, NextEvent(env, s.audit, eventID, id, x.customerID, CREATED, d.contentHash, now)), Ok(d))
  }

  predicate Owns(s: State, id: string, actor: string) { id in s.docs && s.docs[id].customerID == actor }

  function Send(env: Env, s: State, id: string, actor: string, token: string, eventID: string,
                now: nat): Outcome<string>
  {
    if !Owns(s, id, actor) then Outcome(s, Err(NotFound))
    else if s.docs[id].status != Status.Draft then Outcome(s, Err(NotDraft))
    else
      var linked := s.(links := s.links[token := Link(id, now + LINK_LIFETIME)]);
      var e := NextEvent(env, s.audit, eventID, id, actor, SENT, env.sha(token), now);
      Outcome(Record(linked, id, s.docs[id].(status := Sent), e), Ok(token))
  }

  function RequestPEP(env: Env, s: State, token: string, code: string, eventID: string, now: nat): Outcome<string> {
    if token !in s.links || now > s.links[token].expiresAt then Outcome(s, Err(InvalidLink))
    else
      var e :=
        NextEvent(env, s.audit, eventID, s.links[token].documentID, "contractor", CHALLENGED, env.sha(token), now);
      var challenge := Challenge(env.sha(code), now + OTP_LIFETIME);
      Outcome(s.(challenges := s.challenges[token := challenge], audit := s.audit + [e]), Ok(code))
  }

  function Upload(env: Env, s: State, id: string, actor: string, data: string, eventID: string,
                  now: nat): Outcome<Document>
  {
    if !Owns(s, id, actor) then Outcome(s, Err(NotFound))
    else if s.docs[id].status != Status.Draft then Outcome(s, Err(NotDraft))
    else if data == "" then Outcome(s, Err(EmptyObject))
    else
      var key := ObjectKey(s.docs[id].id);
      var d := s.docs[id].(objectKey := key, contentHash := env.sha(data));
      var e := NextEvent(env, s.audit, eventID, d.id, actor, UPLOADED, d.contentHash, now);
      Outcome(Record(s.(objects := s.objects[key := data]), id, d, e), Ok(d))
  }

  function Download(env: Env, s: State, id: string, actor: string): Result<string> {
    if id !in s.docs || !IsParticipant(s.docs[id], actor) then Err(NotFound)
    else if s.docs[id].objectKey == "" then Err(NoFile)
    else if s.docs[id].objectKey !in s.objects then Err(ObjectMissing)
    else if env.sha(s.objects[s.docs[id].objectKey]) != s.docs[id].contentHash then Err(IntegrityFailed)
    else Ok(s.objects[s.docs[id].objectKey])
  }

  datatype Confirmation = Confirmation(
    token: string, contractorID: string, code: string, ip: string, userAgent: string, accepted: bool)

  predicate OtpAccepted(env: Env, s: State, c: Confirmation, now: nat) {
    && c.token in s.links && now <= s.links[c.token].expiresAt
    && s.links[c.token].documentID in s.docs
    && c.token in s.challenges && now <= s.challenges[c.token].expiresAt
    && s.challenges[c.token].digest == env.sha(c.code)
  }

  function ConfirmPEP(env: Env, s: State, c: Confirmation, agreedID: string, signedID: string,
                      now: nat): Outcome<Document>
  {
    if !OtpAccepted(env, s, c, now) then Outcome(s, Err(InvalidOtp))
    else
      var id := s.links[c.token].documentID;
      var d := s.docs[id];
      if c.contractorID == "" || !c.accepted then Outcome(s, Err(MissingIdentity))
      else if c.contractorID != d.contractorPhone then Outcome(s, Err(WrongContractor))
      else if d.status != Sent then Outcome(s, Err(NotSent))
      else
        var evidence := PepEvidence(env, d, c.contractorID, c.ip, c.userAgent, now);
        var signed := d.(status := PepSigned);
        var agreed := NextEvent(env, s.audit, agreedID, id, c.contractorID, AGREED, env.sha(d.agreementVersion), now);
        var pep := NextEvent(env, s.audit + [agreed], signedID, id, c.contractorID, PEP_SIGNED, evidence, now);
        var s' := s.(signatures := s.signatures + [Signature(id, c.contractorID, Pep, evidence, "", now)],
                     challenges := s.challenges - {c.token},
                     audit := s.audit + [agreed]);
        Outcome(Record(s', id, signed, pep), Ok(signed))
  }

  function StartUKEP(env: Env, s: State, id: string, actor: string, reference: string, eventID: string,
                     now: nat): Outcome<Document>
  {
    if !Owns(s, id, actor) then Outcome(s, Err(NotFound))
    else if s.docs[id].status != PepSigned then Outcome(s, Err(PepRequired))
    else
      var d := s.docs[id].(status := AwaitingUkep);
      var e := NextEvent(env, s.audit, eventID, id, actor, UKEP_REQUESTED, env.sha(reference), now);
      Outcome(Record(s, id, d, e), Ok(d))
  }

  function CompleteUKEP(env: Env, s: State, id: string, actor: string, reference: string, eventID: string,
                        now: nat): Outcome<Document>
  {
    if !Owns(s, id, actor) || s.docs[id].status != AwaitingUkep then Outcome(s, Err(InvalidCompletion))
    else
      var d := s.docs[id].(status := Completed);
      var signature := Signature(id, actor, Ukep, UkepEvidence(env, d, reference), reference, now);
      var e := NextEvent(env, s.audit, eventID, id, actor, UKEP_SIGNED, env.sha(reference), now);
      Outcome(Record(s.(signatures := s.signatures + [signature]), id, d, e), Ok(d))
  }

  function Get(s: State, id: string, actor: string): Result<(Document, seq<AuditEvent>)> {
    if id !in s.docs || !IsParticipant(s.docs[id], actor) then Err(NotFound)
    else Ok((s.docs[id], EventsOf(s.audit, id)))
  }

  // ---- Steps and runs ----

  datatype Op =
    | CreateOp(x: Draft, id: string, eventID: string, now: nat)
    | SendOp(id: string, actor: string, token: string, eventID: string, now: nat)
    | RequestOp(token: string, code: string, eventID: string, now: nat)
    | UploadOp(id: string, actor: string, data: string, eventID: string, now: nat)
    | ConfirmOp(c: Confirmation, agreedID: string, signedID: string, now: nat)
    | StartOp(id: string, actor: string, reference: string, eventID: string, now: nat)
    | CompleteOp(id: string, actor: string, reference: string, eventID: string, now: nat)

  function Apply(env: Env, s: State, op: Op): State {
    match op
    case CreateOp(x, id, e, now) => CreateDocument(env, s, x, id, e, now).state
    case SendOp(id, actor, token, e, now) => Send(env, s, id, actor, token, e, now).state
    case RequestOp(token, code, e, now) => RequestPEP(env, s, token, code, e, now).state
    case UploadOp(id, actor, data, e, now) => Upload(env, s, id, actor, data, e, now).state
    case ConfirmOp(c, e1, e2, now) => ConfirmPEP(env, s, c, e1, e2, now).state
    case StartOp(id, actor, ref, e, now) => StartUKEP(env, s, id, actor, ref, e, now).state
    case CompleteOp(id, actor, ref, e, now) => CompleteUKEP(env, s, id, actor, ref, e, now).state
  }

  /** What the random generator gives: identifiers of the UUID length, and a document identifier or signing
      token that is not in use. */
  predicate Drawn(s: State, op: Op) {
    match op
    case CreateOp(_, id, e, _) => |id| == |e| == ID_LENGTH && id !in s.docs
    case SendOp(_, _, token, e, _) => |e| == ID_LENGTH && token !in s.links
    case ConfirmOp(_, e1, e2, _) => |e1| == |e2| == ID_LENGTH
    case _ => |op.eventID| == ID_LENGTH
  }

  function Run(env: Env, ops: seq<Op>): State {
    if ops == [] then INITIAL else Apply(env, Run(env, ops[..|ops| - 1]), ops[|ops| - 1])
  }

  predicate Feasible(env: Env, ops: seq<Op>) {
    ops == [] || (Feasible(env, ops[..|ops| - 1]) && Drawn(Run(env, ops[..|ops| - 1]), ops[|ops| - 1]))
  }
}
