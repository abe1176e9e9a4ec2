/** The service told by its history: which reply a call gets and what the state holds, read off the calls made so far
    and off whether each was accepted, and nothing else. */
module CallHistory {
  import opened Domain
  import opened AuditChain
  import opened Phone
  import opened Service
  import opened ServiceInvariant

  /** A call that was made, and whether it was accepted. */
  datatype Done = Done(op: Op, ok: bool)

  type Past = seq<Done>

  const SECOND: nat := 1_000_000_000

  // ---- Looking up accepted calls ----

  /** The call that created the document. */
  function Creation(past: Past, id: string): (r: Option<Op>)
    ensures r.Some? ==> r.value.CreateOp? && r.value.id == id
  {
    if past == [] then None
    else
      var d := past[|past| - 1];
      if d.ok && d.op.CreateOp? && d.op.id == id then Some(d.op) else Creation(past[..|past| - 1], id)
  }

  /** The call that sent the link. */
  function Sending(past: Past, token: string): (r: Option<Op>)
    ensures r.Some? ==> r.value.SendOp? && r.value.token == token
  {
    if past == [] then None
    else
      var d := past[|past| - 1];
      if d.ok && d.op.SendOp? && d.op.token == token then Some(d.op) else Sending(past[..|past| - 1], token)
  }

  /** The call that issued the code still outstanding on the link: the last one, unless a confirmation has spent it. */
  function Asking(past: Past, token: string): (r: Option<Op>)
    ensures r.Some? ==> r.value.RequestOp? && r.value.token == token
  {
    if past == [] then None
    else
      var d := past[|past| - 1];
      if d.ok && d.op.RequestOp? && d.op.token == token then Some(d.op)
      else if d.ok && d.op.ConfirmOp? && d.op.c.token == token then None
      else Asking(past[..|past| - 1], token)
  }

  /** The last file uploaded for the document. */
  function LastFile(past: Past, id: string): Option<string> {
    if past == [] then None
    else
      var d := past[|past| - 1];
      if d.ok && d.op.UploadOp? && d.op.id == id then Some(d.op.data) else LastFile(past[..|past| - 1], id)
  }

  predicate WasSent(past: Past, id: string) {
    past != [] &&
    var init, d := past[..|past| - 1], past[|past| - 1];
    (d.ok && d.op.SendOp? && d.op.id == id) || WasSent(init, id)
  }

  /** A confirmation on a link to the document has been accepted. */
  predicate WasSigned(past: Past, id: string) {
    past != [] &&
    var init, d := past[..|past| - 1], past[|past| - 1];
    (d.ok && d.op.ConfirmOp? && LeadsTo(init, d.op.c.token, id)) || WasSigned(init, id)
  }

  predicate WasStarted(past: Past, id: string) {
    past != [] &&
    var init, d := past[..|past| - 1], past[|past| - 1];
    (d.ok && d.op.StartOp? && d.op.id == id) || WasStarted(init, id)
  }

  predicate WasCompleted(past: Past, id: string) {
    past != [] &&
    var init, d := past[..|past| - 1], past[|past| - 1];
    (d.ok && d.op.CompleteOp? && d.op.id == id) || WasCompleted(init, id)
  }

  predicate LeadsTo(past: Past, token: string, id: string) {
    Sending(past, token).Some? && Sending(past, token).value.id == id
  }

  predicate CreatedBy(past: Past, id: string, actor: string) {
    Creation(past, id).Some? && Creation(past, id).value.x.customerID == actor
  }

  predicate CreatedFor(past: Past, id: string, contractor: string) {
    Creation(past, id).Some? && Canonical(Creation(past, id).value.x.phone) == contractor
  }

  // ---- What is refused ----

  function SubmitError(x: Service.Draft): Option<Error> {
    var phone := Canonical(x.phone);
    if x.customerID == "" || x.title == "" || x.content == "" || x.agreement == "" then Some(MissingField)
    else if |phone| != 12 || phone[0] != '+' || phone[1] != '7' then Some(MissingField)
    else if |x.title| > 300 || |x.content| > 1_048_576 then Some(TooLarge)
    else if x.template !in {"gph-contract", "act", "nda", "guarantee"} then Some(UnknownTemplate)
    else None
  }

  predicate LinkLive(past: Past, token: string, now: nat) {
    Sending(past, token).Some? && now <= Sending(past, token).value.now + 48 * 3600 * SECOND
  }

  predicate CodeRight(env: Env, past: Past, c: Confirmation, now: nat) {
    Asking(past, c.token).Some?
    && now <= Asking(past, c.token).value.now + 600 * SECOND
    && env.sha(Asking(past, c.token).value.code) == env.sha(c.code)
  }

  /** The error a call meets first, if any. */
  function Refusal(env: Env, past: Past, op: Op): Option<Error> {
    match op
    case CreateOp(x, _, _, _) => SubmitError(x)
    case SendOp(id, actor, _, _, _) =>
      if !CreatedBy(past, id, actor) then Some(NotFound) else if WasSent(past, id) then Some(NotDraft) else None
    case RequestOp(token, _, _, now) => if LinkLive(past, token, now) then None else Some(InvalidLink)
    case UploadOp(id, actor, data, _, _) =>
      if !CreatedBy(past, id, actor) then Some(NotFound)
      else if WasSent(past, id) then Some(NotDraft)
      else if data == "" then Some(EmptyObject) else None
    case ConfirmOp(c, _, _, now) =>
      if !LinkLive(past, c.token, now) || !CodeRight(env, past, c, now) then Some(InvalidOtp)
      else if c.contractorID == "" || !c.accepted then Some(MissingIdentity)
      else if !CreatedFor(past, Sending(past, c.token).value.id, c.contractorID) then Some(WrongContractor)
      else if WasSigned(past, Sending(past, c.token).value.id) then Some(NotSent) else None
    case StartOp(id, actor, _, _, _) =>
      if !CreatedBy(past, id, actor) then Some(NotFound)
      else if !WasSigned(past, id) || WasStarted(past, id) then Some(PepRequired) else None
    case CompleteOp(id, actor, _, _, _) =>
      if !CreatedBy(past, id, actor) || !WasStarted(past, id) || WasCompleted(past, id) then Some(InvalidCompletion)
      else None
  }

  // ---- What the state holds ----

  function StatusTold(past: Past, id: string): Status {
    if WasCompleted(past, id) then Completed
    else if WasStarted(past, id) then AwaitingUkep
    else if WasSigned(past, id) then PepSigned
    else if WasSent(past, id) then Sent else Status.Draft
  }

  /** A document's record: what was submitted, the digest of its last file or else of its content, and its status. */
  function RecordTold(env: Env, past: Past, id: string): Document
    requires Creation(past, id).Some?
  {
    var op, file := Creation(past, id).value, LastFile(past, id);
    Document(id, op.x.title, op.x.template, "1.0", op.x.customerID, Canonical(op.x.phone),
             env.sha(if file.Some? then file.value else op.x.content),
             if file.Some? then "documents/" + id + "/original" else "",
             op.x.amount, StatusTold(past, id), op.x.agreement, op.now)
  }

  /** The document a call on a link is about. */
  function Target(past: Past, token: string): string {
    if Sending(past, token).Some? then Sending(past, token).value.id else ""
  }

  /** An audit entry: which document, who, which action, which payload. */
  datatype Entry = Entry(id: string, documentID: string, actor: string, action: string, payload: string, at: nat)

  function EntryOf(e: AuditEvent): Entry {
    Entry(e.id, e.documentID, e.actorID, e.action, e.payloadHash, e.occurredAt)
  }

  /** The PEP evidence of an accepted confirmation: a digest of content, contractor, agreement, address, agent, time. */
  function EvidenceTold(env: Env, past: Past, c: Confirmation, now: nat): string {
    if Creation(past, Target(past, c.token)).None? then ""
    else
      var d := RecordTold(env, past, Target(past, c.token));
      env.sha(d.contentHash + c.contractorID + d.agreementVersion + c.ip + c.userAgent + env.render(now))
  }

  /** What an accepted call logs. */
  function EntriesOf(env: Env, past: Past, op: Op): seq<Entry> {
    match op
    case CreateOp(x, id, e, now) => [Entry(e, id, x.customerID, "document.created", env.sha(x.content), now)]
    case SendOp(id, actor, token, e, now) => [Entry(e, id, actor, "document.sent", env.sha(token), now)]
    case RequestOp(token, _, e, now) =>
      [Entry(e, Target(past, token), "contractor", "pep.challenge.requested", env.sha(token), now)]
    case UploadOp(id, actor, data, e, now) => [Entry(e, id, actor, "document.file.uploaded", env.sha(data), now)]
    case ConfirmOp(c, e1, e2, now) =>
      var id := Target(past, c.token);
      var agreement := if Creation(past, id).Some? then Creation(past, id).value.x.agreement else "";
      [Entry(e1, id, c.contractorID, "edo.agreement.accepted", env.sha(agreement), now),
       Entry(e2, id, c.contractorID, "pep.signed", EvidenceTold(env, past, c, now), now)]
    case StartOp(id, actor, reference, e, now) => [Entry(e, id, actor, "ukep.requested", env.sha(reference), now)]
    case CompleteOp(id, actor, reference, e, now) => [Entry(e, id, actor, "ukep.signed", env.sha(reference), now)]
  }

  function LogTold(env: Env, past: Past): seq<Entry> {
    if past == [] then []
    else
      var init, d := past[..|past| - 1], past[|past| - 1];
      LogTold(env, init) + if d.ok then EntriesOf(env, init, d.op) else []
  }

  /** The signature an accepted call stores, if it is one that signs. */
  function SignatureOf(env: Env, past: Past, op: Op): seq<Signature> {
    match op
    case ConfirmOp(c, _, _, now) =>
      [Signature(Target(past, c.token), c.contractorID, Pep, EvidenceTold(env, past, c, now), "", now)]
    case CompleteOp(id, actor, reference, _, now) =>
      if Creation(past, id).None? then []
      else [Signature(id, actor, Ukep, env.sha(RecordTold(env, past, id).contentHash + reference), reference, now)]
    case _ => []
  }

  function SignaturesTold(env: Env, past: Past): seq<Signature> {
    if past == [] then []
    else
      var init, d := past[..|past| - 1], past[|past| - 1];
      SignaturesTold(env, init) + if d.ok then SignatureOf(env, init, d.op) else []
  }

  // ---- The service keeps to its history ----

  predicate DocumentTold(env: Env, s: State, past: Past, id: string) {
    && (id in s.docs <==> Creation(past, id).Some?)
    && (id in s.docs ==> |id| == ID_LENGTH && s.docs[id] == RecordTold(env, past, id))
    && (id in s.docs && LastFile(past, id).Some? ==>
          ObjectKey(id) in s.objects && s.objects[ObjectKey(id)] == LastFile(past, id).value)
    && InOrder(past, id)
  }

  /** No step of a document's life comes before the one it rests on. */
  predicate InOrder(past: Past, id: string) {
    && (WasCompleted(past, id) ==> WasStarted(past, id))
    && (WasStarted(past, id) ==> WasSigned(past, id))
    && (WasSigned(past, id) ==> WasSent(past, id))
    && (WasSent(past, id) || LastFile(past, id).Some? ==> Creation(past, id).Some?)
  }

  predicate TokenTold(env: Env, s: State, past: Past, token: string) {
    && (token in s.links <==> Sending(past, token).Some?)
    && (token in s.links ==>
          var op := Sending(past, token).value;
          s.links[token] == Link(op.id, op.now + 48 * 3600 * SECOND) && WasSent(past, op.id))
    && (token in s.challenges <==> Asking(past, token).Some?)
    && (token in s.challenges ==>
          var op := Asking(past, token).value;
          s.challenges[token] == Challenge(env.sha(op.code), op.now + 600 * SECOND))
  }

  predicate AuditTold(env: Env, audit: seq<AuditEvent>, past: Past) {
    |audit| == |LogTold(env, past)| && forall i | 0 <= i < |audit| :: EntryOf(audit[i]) == LogTold(env, past)[i]
  }

  ghost predicate Told(env: Env, s: State, past: Past) {
    && (forall id :: DocumentTold(env, s, past, id))
    && (forall token :: TokenTold(env, s, past, token))
    && AuditTold(env, s.audit, past) && s.signatures == SignaturesTold(env, past)
  }

  datatype Answer = Shown(d: Document) | Text(text: string)

  function AsRecord(r: Result<Document>): Result<Answer> { match r case Ok(d) => Ok(Shown(d)) case Err(e) => Err(e) }

  function AsText(r: Result<string>): Result<Answer> { match r case Ok(t) => Ok(Text(t)) case Err(e) => Err(e) }

  /** What the service replies. */
  function Reply(env: Env, s: State, op: Op): Result<Answer> {
    match op
    case CreateOp(x, id, e, now) => AsRecord(CreateDocument(env, s, x, id, e, now).result)
    case SendOp(id, actor, token, e, now) => AsText(Send(env, s, id, actor, token, e, now).result)
    case RequestOp(token, code, e, now) => AsText(RequestPEP(env, s, token, code, e, now).result)
    case UploadOp(id, actor, data, e, now) => AsRecord(Upload(env, s, id, actor, data, e, now).result)
    case ConfirmOp(c, e1, e2, now) => AsRecord(ConfirmPEP(env, s, c, e1, e2, now).result)
    case StartOp(id, actor, ref, e, now) => AsRecord(StartUKEP(env, s, id, actor, ref, e, now).result)
    case CompleteOp(id, actor, ref, e, now) => AsRecord(CompleteUKEP(env, s, id, actor, ref, e, now).result)
  }

  /** What it should reply: the first error met, or the link's token, the code, or the record as the call leaves it. */
  function ReplyTold(env: Env, past: Past, op: Op): Result<Answer> {
    if Refusal(env, past, op).Some? then Err(Refusal(env, past, op).value)
    else match op
      case SendOp(_, _, token, _, _) => Ok(Text(token))
      case RequestOp(_, code, _, _) => Ok(Text(code))
      case ConfirmOp(c, _, _, _) => RecordAfter(env, past, op, Target(past, c.token))
      case _ => RecordAfter(env, past, op, op.id)
  }

  function RecordAfter(env: Env, past: Past, op: Op, id: string): Result<Answer> {
    var after := past + [Done(op, true)];
    if Creation(after, id).Some? then Ok(Shown(RecordTold(env, after, id))) else Err(NotFound)
  }

  /** The calls of a run, with whether the service accepted them. */
  function History(env: Env, ops: seq<Op>): Past {
    if ops == [] then []
    else
      var init, op := ops[..|ops| - 1], ops[|ops| - 1];
      History(env, init) + [Done(op, Reply(env, Run(env, init), op).Ok?)]
  }

  // ---- One more call ----

  lemma MoreDone(past: Past, d: Done, id: string, token: string)
    ensures var more := past + [d];
            && Creation(more, id) ==
                (if d.ok && d.op.CreateOp? && d.op.id == id then Some(d.op) else Creation(past, id))
            && Sending(more, token) ==
                (if d.ok && d.op.SendOp? && d.op.token == token then Some(d.op) else Sending(past, token))
            && Asking(more, token) == (if d.ok && d.op.RequestOp? && d.op.token == token then Some(d.op)
                                       else if d.ok && d.op.ConfirmOp? && d.op.c.token == token then None
                                       else Asking(past, token))
            && LastFile(more, id) ==
                (if d.ok && d.op.UploadOp? && d.op.id == id then Some(d.op.data) else LastFile(past, id))
            && (WasSent(more, id) <==> (d.ok && d.op.SendOp? && d.op.id == id) || WasSent(past, id))
            && (WasSigned(more, id) <==>
                  (d.ok && d.op.ConfirmOp? && LeadsTo(past, d.op.c.token, id)) || WasSigned(past, id))
            && (WasStarted(more, id) <==> (d.ok && d.op.StartOp? && d.op.id == id) || WasStarted(past, id))
            && (WasCompleted(more, id) <==> (d.ok && d.op.CompleteOp? && d.op.id == id) || WasCompleted(past, id))
  {
    assert (past + [d])[..|past|] == past;
  }

  lemma MoreTold(env: Env, past: Past, d: Done)
    ensures LogTold(env, past + [d]) == LogTold(env, past) + if d.ok then EntriesOf(env, past, d.op) else []
    ensures SignaturesTold(env, past + [d]) ==
              SignaturesTold(env, past) + if d.ok then SignatureOf(env, past, d.op) else []
  {
    assert (past + [d])[..|past|] == past;
  }

  /** A refused call leaves everything told. */
  lemma RefusedTold(env: Env, s: State, past: Past, op: Op)
    requires Told(env, s, past)
    ensures Told(env, s, past + [Done(op, false)])
  {
    var d := Done(op, false);
    MoreTold(env, past, d);
    forall id ensures DocumentTold(env, s, past + [d], id) {
      MoreDone(past, d, id, "");
      assert DocumentTold(env, s, past, id);
    }
    forall token ensures TokenTold(env, s, past + [d], token) {
      MoreDone(past, d, "", token);
      assert TokenTold(env, s, past, token);
      if token in s.links { MoreDone(past, d, Sending(past, token).value.id, token); }
    }
  }

  lemma LogMore(env: Env, audit: seq<AuditEvent>, more: seq<AuditEvent>, past: Past, op: Op)
    requires AuditTold(env, audit, past) && |more| == |EntriesOf(env, past, op)|
    requires forall i | 0 <= i < |more| :: EntryOf(more[i]) == EntriesOf(env, past, op)[i]
    ensures AuditTold(env, audit + more, past + [Done(op, true)])
  {
    MoreTold(env, past, Done(op, true));
  }

  /** A token no call has used yet tells nothing new. */
  lemma SameTokens(env: Env, s: State, t: State, past: Past, op: Op)
    requires Told(env, s, past) && !op.SendOp? && !op.RequestOp? && !op.ConfirmOp?
    requires t.links == s.links && t.challenges == s.challenges
    ensures forall token :: TokenTold(env, t, past + [Done(op, true)], token)
  {
    forall token ensures TokenTold(env, t, past + [Done(op, true)], token) {
      assert TokenTold(env, s, past, token);
      MoreDone(past, Done(op, true), if token in s.links then Sending(past, token).value.id else "", token);
    }
  }

  // ---- Creating ----

  lemma CreateReplies(env: Env, s: State, past: Past, op: Op)
    requires Told(env, s, past) && op.CreateOp? && Drawn(s, op)
    ensures Reply(env, s, op) == ReplyTold(env, past, op)
  {
    var d := Done(op, true);
    MoreDone(past, d, op.id, "");
    assert DocumentTold(env, s, past, op.id);
  }

  lemma CreateTold(env: Env, s: State, past: Past, op: Op)
    requires Told(env, s, past) && op.CreateOp? && Drawn(s, op) && Reply(env, s, op).Ok?
    ensures Told(env, Apply(env, s, op), past + [Done(op, true)])
  {
    var d, t := Done(op, true), Apply(env, s, op);
    MoreTold(env, past, d);
    LogMore(env, s.audit, [t.audit[|s.audit|]], past, op);
    SameTokens(env, s, t, past, op);
    forall id ensures DocumentTold(env, t, past + [d], id) {
      MoreDone(past, d, id, "");
      assert DocumentTold(env, s, past, id);
    }
  }

  // ---- Sending ----

  lemma SendReplies(env: Env, s: State, past: Past, op: Op)
    requires Told(env, s, past) && op.SendOp?
    ensures Reply(env, s, op) == ReplyTold(env, past, op)
  {
    assert DocumentTold(env, s, past, op.id);
  }

  lemma SendTold(env: Env, s: State, past: Past, op: Op)
    requires Told(env, s, past) && op.SendOp? && Drawn(s, op) && Reply(env, s, op).Ok?
    ensures Told(env, Apply(env, s, op), past + [Done(op, true)])
  {
    var d, t := Done(op, true), Apply(env, s, op);
    MoreTold(env, past, d);
    LogMore(env, s.audit, [t.audit[|s.audit|]], past, op);
    forall id ensures DocumentTold(env, t, past + [d], id) {
      MoreDone(past, d, id, "");
      assert DocumentTold(env, s, past, id);
    }
    forall token ensures TokenTold(env, t, past + [d], token) {
      assert TokenTold(env, s, past, token);
      MoreDone(past, d, if token in s.links then Sending(past, token).value.id else op.id, token);
    }
  }

  // ---- Asking for a code ----

  lemma RequestReplies(env: Env, s: State, past: Past, op: Op)
    requires Told(env, s, past) && op.RequestOp?
    ensures Reply(env, s, op) == ReplyTold(env, past, op)
  {
    assert TokenTold(env, s, past, op.token);
  }

  lemma RequestTold(env: Env, s: State, past: Past, op: Op)
    requires Told(env, s, past) && op.RequestOp? && Reply(env, s, op).Ok?
    ensures Told(env, Apply(env, s, op), past + [Done(op, true)])
  {
    var d, t := Done(op, true), Apply(env, s, op);
    MoreTold(env, past, d);
    assert TokenTold(env, s, past, op.token);
    LogMore(env, s.audit, [t.audit[|s.audit|]], past, op);
    forall id ensures DocumentTold(env, t, past + [d], id) {
      MoreDone(past, d, id, "");
      assert DocumentTold(env, s, past, id);
    }
    forall token ensures TokenTold(env, t, past + [d], token) {
      assert TokenTold(env, s, past, token);
      MoreDone(past, d, if token in s.links then Sending(past, token).value.id else "", token);
    }
  }

  // ---- Uploading ----

  lemma UploadReplies(env: Env, s: State, past: Past, op: Op)
    requires Told(env, s, past) && op.UploadOp?
    ensures Reply(env, s, op) == ReplyTold(env, past, op)
  {
    assert DocumentTold(env, s, past, op.id);
    MoreDone(past, Done(op, true), op.id, "");
  }

  lemma UploadTold(env: Env, s: State, past: Past, op: Op)
    requires Told(env, s, past) && op.UploadOp? && Reply(env, s, op).Ok?
    ensures Told(env, Apply(env, s, op), past + [Done(op, true)])
  {
    var d, t := Done(op, true), Apply(env, s, op);
    MoreTold(env, past, d);
    assert DocumentTold(env, s, past, op.id);
    LogMore(env, s.audit, [t.audit[|s.audit|]], past, op);
    SameTokens(env, s, t, past, op);
    forall id ensures DocumentTold(env, t, past + [d], id) {
      MoreDone(past, d, id, "");
      assert DocumentTold(env, s, past, id);
      if id in s.docs && ObjectKey(id) == ObjectKey(op.id) { ObjectKeyInjective(id, op.id); }
    }
  }

  // ---- Confirming ----

  lemma ConfirmReplies(env: Env, s: State, past: Past, op: Op)
    requires Told(env, s, past) && op.ConfirmOp?
    ensures Reply(env, s, op) == ReplyTold(env, past, op)
  {
    var token := op.c.token;
    assert TokenTold(env, s, past, token);
    if token in s.links {
      var id := Sending(past, token).value.id;
      assert DocumentTold(env, s, past, id);
      MoreDone(past, Done(op, true), id, token);
    }
  }

  lemma ConfirmDocuments(env: Env, s: State, past: Past, op: Op, id: string)
    requires Told(env, s, past) && op.ConfirmOp? && Reply(env, s, op).Ok?
    ensures DocumentTold(env, Apply(env, s, op), past + [Done(op, true)], id)
  {
    assert TokenTold(env, s, past, op.c.token);
    MoreDone(past, Done(op, true), id, "");
    assert DocumentTold(env, s, past, id);
  }

  lemma ConfirmTokens(env: Env, s: State, past: Past, op: Op, token: string)
    requires Told(env, s, past) && op.ConfirmOp? && Reply(env, s, op).Ok?
    ensures TokenTold(env, Apply(env, s, op), past + [Done(op, true)], token)
  {
    assert TokenTold(env, s, past, token);
    MoreDone(past, Done(op, true), if token in s.links then Sending(past, token).value.id else "", token);
  }

  lemma ConfirmTold(env: Env, s: State, past: Past, op: Op)
    requires Told(env, s, past) && op.ConfirmOp? && Reply(env, s, op).Ok?
    ensures Told(env, Apply(env, s, op), past + [Done(op, true)])
  {
    var d, t := Done(op, true), Apply(env, s, op);
    MoreTold(env, past, d);
    assert TokenTold(env, s, past, op.c.token);
    assert DocumentTold(env, s, past, Sending(past, op.c.token).value.id);
    assert t.audit == s.audit + [t.audit[|s.audit|], t.audit[|s.audit| + 1]];
    LogMore(env, s.audit, [t.audit[|s.audit|], t.audit[|s.audit| + 1]], past, op);
    forall id ensures DocumentTold(env, t, past + [d], id) { ConfirmDocuments(env, s, past, op, id); }
    forall token ensures TokenTold(env, t, past + [d], token) { ConfirmTokens(env, s, past, op, token); }
  }

  // ---- The qualified signature ----

  lemma StartReplies(env: Env, s: State, past: Past, op: Op)
    requires Told(env, s, past) && op.StartOp?
    ensures Reply(env, s, op) == ReplyTold(env, past, op)
  {
    assert DocumentTold(env, s, past, op.id);
    MoreDone(past, Done(op, true), op.id, "");
  }

  lemma StartTold(env: Env, s: State, past: Past, op: Op)
    requires Told(env, s, past) && op.StartOp? && Reply(env, s, op).Ok?
    ensures Told(env, Apply(env, s, op), past + [Done(op, true)])
  {
    var d, t := Done(op, true), Apply(env, s, op);
    MoreTold(env, past, d);
    LogMore(env, s.audit, [t.audit[|s.audit|]], past, op);
    SameTokens(env, s, t, past, op);
    forall id ensures DocumentTold(env, t, past + [d], id) {
      MoreDone(past, d, id, "");
      assert DocumentTold(env, s, past, id);
    }
  }

  lemma CompleteReplies(env: Env, s: State, past: Past, op: Op)
    requires Told(env, s, past) && op.CompleteOp?
    ensures Reply(env, s, op) == ReplyTold(env, past, op)
  {
    assert DocumentTold(env, s, past, op.id);
    MoreDone(past, Done(op, true), op.id, "");
  }

  lemma CompleteTold(env: Env, s: State, past: Past, op: Op)
    requires Told(env, s, past) && op.CompleteOp? && Reply(env, s, op).Ok?
    ensures Told(env, Apply(env, s, op), past + [Done(op, true)])
  {
    var d, t := Done(op, true), Apply(env, s, op);
    MoreTold(env, past, d);
    assert DocumentTold(env, s, past, op.id);
    LogMore(env, s.audit, [t.audit[|s.audit|]], past, op);
    SameTokens(env, s, t, past, op);
    forall id ensures DocumentTold(env, t, past + [d], id) {
      MoreDone(past, d, id, "");
      assert DocumentTold(env, s, past, id);
    }
  }

  // ---- Over whole runs ----

  lemma Replies(env: Env, s: State, past: Past, op: Op)
    requires Told(env, s, past) && Drawn(s, op)
    ensures Reply(env, s, op) == ReplyTold(env, past, op)
  {
    match op
    case CreateOp(_, _, _, _) => CreateReplies(env, s, past, op);
    case SendOp(_, _, _, _, _) => SendReplies(env, s, past, op);
    case RequestOp(_, _, _, _) => RequestReplies(env, s, past, op);
    case UploadOp(_, _, _, _, _) => UploadReplies(env, s, past, op);
    case ConfirmOp(_, _, _, _) => ConfirmReplies(env, s, past, op);
    case StartOp(_, _, _, _, _) => StartReplies(env, s, past, op);
    case CompleteOp(_, _, _, _, _) => CompleteReplies(env, s, past, op);
  }

  lemma AcceptedTold(env: Env, s: State, past: Past, op: Op)
    requires Told(env, s, past) && Drawn(s, op) && Reply(env, s, op).Ok?
    ensures Told(env, Apply(env, s, op), past + [Done(op, true)])
  {
    match op
    case CreateOp(_, _, _, _) => CreateTold(env, s, past, op);
    case SendOp(_, _, _, _, _) => SendTold(env, s, past, op);
    case RequestOp(_, _, _, _) => RequestTold(env, s, past, op);
    case UploadOp(_, _, _, _, _) => UploadTold(env, s, past, op);
    case ConfirmOp(_, _, _, _) => ConfirmTold(env, s, past, op);
    case StartOp(_, _, _, _, _) => StartTold(env, s, past, op);
    case CompleteOp(_, _, _, _, _) => CompleteTold(env, s, past, op);
  }

  lemma RefusedChangesNothing(env: Env, s: State, op: Op)
    requires Reply(env, s, op).Err?
    ensures Apply(env, s, op) == s
  {
  }

  /** After every run the state is what its history tells: documents, links, challenges, files, log and signatures. */
  lemma {:induction false} StateIsTold(env: Env, ops: seq<Op>)
    requires Feasible(env, ops)
    ensures Told(env, Run(env, ops), History(env, ops))
  {
    if ops == [] {
      forall id ensures DocumentTold(env, INITIAL, [], id) {}
      forall token ensures TokenTold(env, INITIAL, [], token) {}
    } else {
      var init, op := ops[..|ops| - 1], ops[|ops| - 1];
      var s, past := Run(env, init), History(env, init);
      StateIsTold(env, init);
      if Reply(env, s, op).Ok? {
        AcceptedTold(env, s, past, op);
      } else {
        RefusedChangesNothing(env, s, op);
        RefusedTold(env, s, past, op);
      }
    }
  }

  /** And every call gets the reply its history tells: it is accepted exactly when nothing in the history refuses it,
      else it gets the error it meets first and changes nothing. */
  lemma {:induction false} RepliesAreTold(env: Env, ops: seq<Op>, op: Op)
    requires Feasible(env, ops) && Drawn(Run(env, ops), op)
    ensures Reply(env, Run(env, ops), op) == ReplyTold(env, History(env, ops), op)
    ensures Reply(env, Run(env, ops), op).Ok? <==> Refusal(env, History(env, ops), op).None?
    ensures Refusal(env, History(env, ops), op).Some? ==> Apply(env, Run(env, ops), op) == Run(env, ops)
  {
    StateIsTold(env, ops);
    Replies(env, Run(env, ops), History(env, ops), op);
    if Reply(env, Run(env, ops), op).Err? { RefusedChangesNothing(env, Run(env, ops), op); }
  }
}
