/** What holds after every run of the service: the reader-facing consequences of the invariant. */
module ServiceRuns {
  import opened Domain
  import opened AuditChain
  import opened CallHistory
  import opened Phone
  import opened Service
  import opened ServiceInvariant

  /** Folding a document's audit events gives its current status and content hash, and what its signatures attest. */
  lemma {:induction false} LogReplaysToRecord(env: Env, ops: seq<Op>, id: string)
    requires Feasible(env, ops) && id in Run(env, ops).docs
    ensures var s := Run(env, ops);
            Replay(EventsOf(s.audit, id)) == ViewOf(env, s.docs[id], SignaturesOf(s.signatures, id))
  {
    RunsKeepInv(env, ops);
    assert OkAt(env, Run(env, ops), id);
  }

  /** A document has no signature until it is signed, then exactly the contractor's, then that one followed by the
      customer's qualified signature, both over the content hash the document still has. */
  lemma {:induction false} SignatureHistory(env: Env, ops: seq<Op>, id: string)
    requires Feasible(env, ops) && id in Run(env, ops).docs
    ensures var s := Run(env, ops); Signed(env, SignaturesOf(s.signatures, id), s.docs[id])
  {
    RunsKeepInv(env, ops);
    assert OkAt(env, Run(env, ops), id);
    MatchIsSigned(env, SignaturesOf(Run(env, ops).signatures, id), Run(env, ops).docs[id]);
  }

  lemma MatchIsSigned(env: Env, own: seq<Signature>, d: Document)
    requires SignaturesMatch(env, own, d)
    ensures Signed(env, own, d)
  {
  }

  ghost predicate Signed(env: Env, own: seq<Signature>, d: Document) {
    && |own| <= 2
    && (own == [] <==> Rank(d.status) < Rank(PepSigned))
    && (|own| == 2 <==> d.status == Completed)
    && (|own| >= 1 ==> IsPepOf(env, own[0], d))
    && (|own| == 2 ==> IsUkepOf(env, own[1], d))
  }

  // ---- Exact acceptance of the audit check ----

  /** After every run the check accepts a document exactly when its events are the initial segment of the log. */
  lemma {:induction false} AuditAcceptance(env: Env, ops: seq<Op>, id: string)
    requires Feasible(env, ops)
    requires NoCollision(env, Run(env, ops).audit, Run(env, ops).audit)
    ensures var audit := Run(env, ops).audit;
            Verified(env, EventsOf(audit, id)) <==> EventsOf(audit, id) <= audit
  {
    RunsKeepInv(env, ops);
    VerifiesIffInitialSegment(env, Run(env, ops).audit, id);
  }

  /** A run with one document always verifies, whatever the hash function. */
  lemma {:induction false} OneDocumentVerifies(env: Env, ops: seq<Op>, id: string)
    requires Feasible(env, ops) && Run(env, ops).docs.Keys == {id}
    ensures Verified(env, EventsOf(Run(env, ops).audit, id))
  {
    RunsKeepInv(env, ops);
    var audit := Run(env, ops).audit;
    forall i | 0 <= i < |audit| ensures audit[i].documentID == id { assert audit[i] in audit; }
    AllOwn(audit, id);
  }

  /** And a document created after another one never does: its first event names a predecessor. */
  lemma {:induction false} LaterDocumentsNeverVerify(env: Env, ops: seq<Op>, id: string)
    requires Feasible(env, ops)
    requires EventsOf(Run(env, ops).audit, id) != [] && Run(env, ops).audit[0].documentID != id
    ensures !Verified(env, EventsOf(Run(env, ops).audit, id))
  {
    RunsKeepInv(env, ops);
    var audit := Run(env, ops).audit;
    var own := EventsOf(audit, id);
    assert own[0] in own;
    LaterStartFails(env, audit, own);
  }

  /** Such a document appears as soon as one is created after anything has been logged. */
  lemma {:induction false} CreatedLaterIsRejected(env: Env, ops: seq<Op>, x: Service.Draft, id: string,
                                                  eventID: string, now: nat)
    requires Feasible(env, ops) && Run(env, ops).audit != [] && Drawn(Run(env, ops), CreateOp(x, id, eventID, now))
    requires CreateDocument(env, Run(env, ops), x, id, eventID, now).result.Ok?
    ensures var more := ops + [CreateOp(x, id, eventID, now)];
            Feasible(env, more) && id in Run(env, more).docs && !Verified(env, EventsOf(Run(env, more).audit, id))
  {
    var op, s := CreateOp(x, id, eventID, now), Run(env, ops);
    RunsAppend(env, ops, op);
    RunsKeepInv(env, ops);
    var t := CreateDocument(env, s, x, id, eventID, now).state;
    assert t.audit == s.audit + [t.audit[|s.audit|]] && s.audit[0] in s.audit;
    EventsOfAppend(s.audit, t.audit[|s.audit|], id);
    LaterDocumentsNeverVerify(env, ops + [op], id);
  }

  lemma {:induction false} AllOwn(audit: seq<AuditEvent>, id: string)
    requires forall i | 0 <= i < |audit| :: audit[i].documentID == id
    ensures EventsOf(audit, id) == audit
  {
    if audit != [] {
      var init, last := audit[..|audit| - 1], audit[|audit| - 1];
      AllOwn(init, id);
      assert audit == init + [last];
    }
  }

  // ---- Content is frozen once sent ----

  /** What signing is about: content, parties and the stored bytes. */
  ghost predicate SameContent(s: State, t: State, id: string)
    requires id in s.docs
  {
    && id in t.docs
    && t.docs[id] == s.docs[id].(status := t.docs[id].status)
    && (ObjectKey(id) in s.objects ==>
        ObjectKey(id) in t.objects && t.objects[ObjectKey(id)] == s.objects[ObjectKey(id)])
  }

  /** The upload a step accepts, if any: document and bytes. */
  datatype Accepted = NoUpload | AcceptedUpload(id: string, data: string)

  /** Only the customer uploads, only to a draft, and only a file with something in it. */
  function Accepts(s: State, op: Op): Accepted {
    if op.UploadOp? && op.id in s.docs && s.docs[op.id].customerID == op.actor && s.docs[op.id].status == Status.Draft
       && op.data != ""
    then AcceptedUpload(op.id, op.data) else NoUpload
  }

  /** Only an accepted upload changes a draft's content or any stored bytes; all else that changes in an
      existing document is its status, upwards. */
  ghost predicate ContentStep(s: State, t: State, up: Accepted) {
    && (forall id | id in s.docs :: Carried(s, t, up, id))
    && (forall id | id in t.docs && id !in s.docs :: t.docs[id].objectKey == "")
    && ObjectsStep(s, t, up)
  }

  predicate Carried(s: State, t: State, up: Accepted, id: string)
    requires id in s.docs
  {
    && id in t.docs && Rank(s.docs[id].status) <= Rank(t.docs[id].status)
    && (up == NoUpload || up.id != id ==> t.docs[id] == s.docs[id].(status := t.docs[id].status))
  }

  predicate ObjectsStep(s: State, t: State, up: Accepted) {
    match up
    case NoUpload => t.objects == s.objects
    case AcceptedUpload(id, data) =>
      && id in s.docs && s.docs[id].status == Status.Draft && |id| == ID_LENGTH
      && id in t.docs && t.docs[id].objectKey == ObjectKey(id) && t.objects == s.objects[ObjectKey(id) := data]
  }

  ghost predicate Keyed(s: State) { forall id | id in s.docs :: s.docs[id].id == id && |id| == ID_LENGTH }

  lemma RecordContent(s: State, t: State, d: Document, e: AuditEvent)
    requires Keyed(s) && t.docs == s.docs && t.objects == s.objects && d.id in s.docs
    requires d == s.docs[d.id].(status := d.status) && Rank(s.docs[d.id].status) <= Rank(d.status)
    ensures ContentStep(s, Record(t, d.id, d, e), NoUpload)
  {
  }

  lemma CreateContent(env: Env, s: State, x: Service.Draft, id: string, eventID: string, now: nat)
    requires id !in s.docs
    ensures ContentStep(s, CreateDocument(env, s, x, id, eventID, now).state, NoUpload)
  {
  }

  lemma SendContent(env: Env, s: State, id: string, actor: string, token: string, eventID: string, now: nat)
    requires Keyed(s)
    ensures ContentStep(s, Send(env, s, id, actor, token, eventID, now).state, NoUpload)
  {
  }

  lemma UploadContent(env: Env, s: State, id: string, actor: string, data: string, eventID: string, now: nat)
    requires Keyed(s)
    ensures ContentStep(s, Upload(env, s, id, actor, data, eventID, now).state,
                        Accepts(s, UploadOp(id, actor, data, eventID, now)))
  {
    var o := Upload(env, s, id, actor, data, eventID, now);
    if o.result.Ok? { RecordUpload(s, id, data, o.result.value, o.state.audit[|s.audit|]); }
  }

  lemma RecordUpload(s: State, id: string, data: string, d: Document, e: AuditEvent)
    requires Keyed(s) && id in s.docs && d.id == id && s.docs[id].status == Status.Draft && d.status == Status.Draft
    requires d.objectKey == ObjectKey(id)
    ensures ContentStep(s, Record(s.(objects := s.objects[ObjectKey(id) := data]), id, d, e), AcceptedUpload(id, data))
  {
  }

  lemma RequestContent(env: Env, s: State, token: string, code: string, eventID: string, now: nat)
    ensures ContentStep(s, RequestPEP(env, s, token, code, eventID, now).state, NoUpload)
  {
  }

  lemma ConfirmContent(env: Env, s: State, c: Confirmation, agreedID: string, signedID: string, now: nat)
    requires Keyed(s)
    ensures ContentStep(s, ConfirmPEP(env, s, c, agreedID, signedID, now).state, NoUpload)
  {
    var o := ConfirmPEP(env, s, c, agreedID, signedID, now);
    if o.result.Ok? {
      var t := o.state.(docs := s.docs, audit := s.audit + [o.state.audit[|s.audit|]]);
      RecordContent(s, t, o.result.value, o.state.audit[|s.audit| + 1]);
    }
  }

  lemma StartContent(env: Env, s: State, id: string, actor: string, reference: string, eventID: string, now: nat)
    requires Keyed(s)
    ensures ContentStep(s, StartUKEP(env, s, id, actor, reference, eventID, now).state, NoUpload)
  {
  }

  lemma CompleteContent(env: Env, s: State, id: string, actor: string, reference: string, eventID: string, now: nat)
    requires Keyed(s)
    ensures ContentStep(s, CompleteUKEP(env, s, id, actor, reference, eventID, now).state, NoUpload)
  {
  }

  lemma InvKeyed(env: Env, s: State)
    requires Inv(env, s)
    ensures Keyed(s)
  {
  }

  lemma StepsContent(env: Env, s: State, op: Op, t: State, up: Accepted)
    requires Keyed(s) && Drawn(s, op) && t == Apply(env, s, op) && up == Accepts(s, op)
    ensures ContentStep(s, t, up)
  {
    assert op.UploadOp? || up == NoUpload;
    match op
    case CreateOp(x, id, e, now) =>
      CreateContent(env, s, x, id, e, now);
      assert t == CreateDocument(env, s, x, id, e, now).state;
    case SendOp(id, actor, token, e, now) =>
      SendContent(env, s, id, actor, token, e, now);
      assert t == Send(env, s, id, actor, token, e, now).state;
    case RequestOp(token, code, e, now) =>
      RequestContent(env, s, token, code, e, now);
      assert t == RequestPEP(env, s, token, code, e, now).state;
    case UploadOp(id, actor, data, e, now) =>
      UploadContent(env, s, id, actor, data, e, now);
      assert t == Upload(env, s, id, actor, data, e, now).state && op == UploadOp(id, actor, data, e, now);
    case ConfirmOp(c, e1, e2, now) =>
      ConfirmContent(env, s, c, e1, e2, now);
      assert t == ConfirmPEP(env, s, c, e1, e2, now).state;
    case StartOp(id, actor, ref, e, now) =>
      StartContent(env, s, id, actor, ref, e, now);
      assert t == StartUKEP(env, s, id, actor, ref, e, now).state;
    case CompleteOp(id, actor, ref, e, now) =>
      CompleteContent(env, s, id, actor, ref, e, now);
      assert t == CompleteUKEP(env, s, id, actor, ref, e, now).state;
  }

  lemma StepFreezes(s: State, t: State, up: Accepted, id: string)
    requires ContentStep(s, t, up) && id in s.docs && |id| == ID_LENGTH && s.docs[id].status != Status.Draft
    ensures SameContent(s, t, id) && Rank(s.docs[id].status) <= Rank(t.docs[id].status)
  {
    assert Carried(s, t, up, id);
    if up.AcceptedUpload? && ObjectKey(up.id) == ObjectKey(id) { ObjectKeyInjective(up.id, id); }
  }

  lemma {:induction false} RunsAppend(env: Env, ops: seq<Op>, op: Op)
    ensures Run(env, ops + [op]) == Apply(env, Run(env, ops), op)
    ensures Feasible(env, ops + [op]) <==> Feasible(env, ops) && Drawn(Run(env, ops), op)
  {
  }

  /** No continuation of a run changes the content of a document that has been sent, nor lowers its status. */
  lemma {:induction false} ContentFrozen(env: Env, ops: seq<Op>, more: seq<Op>, id: string)
    requires Feasible(env, ops + more)
    requires id in Run(env, ops).docs && Run(env, ops).docs[id].status != Status.Draft
    ensures Feasible(env, ops)
    ensures var s, t := Run(env, ops), Run(env, ops + more);
            SameContent(s, t, id) && Rank(s.docs[id].status) <= Rank(t.docs[id].status)
  {
    if more == [] {
      assert ops + more == ops;
    } else {
      var init, last := more[..|more| - 1], more[|more| - 1];
      assert ops + more == ops + init + [last];
      RunsAppend(env, ops + init, last);
      ContentFrozen(env, ops, init, id);
      var s := Run(env, ops + init);
      RunsKeepInv(env, ops + init);
      InvKeyed(env, s);
      StepsContent(env, s, last, Apply(env, s, last), Accepts(s, last));
      assert OkAt(env, s, id);
      StepFreezes(s, Apply(env, s, last), Accepts(s, last), id);
    }
  }

  // ---- Records and downloads, told by the calls made ----

  /** A document is there exactly when a call created it. It has what that call submitted, and its content hash is the
      digest of the last file uploaded, or of the submitted content when there is none. */
  lemma {:induction false} RecordIsSubmitted(env: Env, ops: seq<Op>, id: string)
    requires Feasible(env, ops)
    ensures var s, past := Run(env, ops), History(env, ops);
            && (id in s.docs <==> Creation(past, id).Some?)
            && (id in s.docs ==>
                  var d, call, file := s.docs[id], Creation(past, id).value, LastFile(past, id);
                  && d.contentHash == env.sha(if file.Some? then file.value else call.x.content)
                  && d.title == call.x.title && d.template == call.x.template && d.templateVersion == "1.0"
                  && d.customerID == call.x.customerID && d.contractorPhone == Canonical(call.x.phone)
                  && d.agreementVersion == call.x.agreement && d.amountKopecks == call.x.amount
                  && d.createdAt == call.now && d.status == StatusTold(past, id))
  {
    StateIsTold(env, ops);
    assert DocumentTold(env, Run(env, ops), History(env, ops), id);
  }

  /** The customer that created the document, or the contractor named then. */
  predicate TakesPart(past: Past, id: string, actor: string) {
    actor != "" && (CreatedBy(past, id, actor) || CreatedFor(past, id, actor))
  }

  /** In every reachable state a participant downloads exactly the bytes of the last accepted upload; the
      integrity check never fails and the object is never missing. */
  lemma {:induction false} DownloadReturnsLastUpload(env: Env, ops: seq<Op>, id: string, actor: string)
    requires Feasible(env, ops)
    ensures var past := History(env, ops);
            Download(env, Run(env, ops), id, actor) ==
              if !TakesPart(past, id, actor) then Err(NotFound)
              else match LastFile(past, id)
                case None => Err(NoFile)
                case Some(data) => Ok(data)
  {
    StateIsTold(env, ops);
    assert DocumentTold(env, Run(env, ops), History(env, ops), id);
  }

  function EntriesAbout(log: seq<Entry>, id: string): seq<Entry> {
    if log == [] then []
    else
      var last := log[|log| - 1];
      EntriesAbout(log[..|log| - 1], id) + if last.documentID == id then [last] else []
  }

  function EntriesFor(events: seq<AuditEvent>): seq<Entry> {
    seq(|events|, i requires 0 <= i < |events| => EntryOf(events[i]))
  }

  lemma {:induction false} EventsAbout(audit: seq<AuditEvent>, id: string)
    ensures EntriesFor(EventsOf(audit, id)) == EntriesAbout(EntriesFor(audit), id)
  {
    if audit != [] {
      var init := audit[..|audit| - 1];
      EventsAbout(init, id);
      assert EntriesFor(audit)[..|init|] == EntriesFor(init);
    }
  }

  /** A participant is shown the record and the log entries about the document, as the calls made tell them. */
  lemma {:induction false} GetIsTold(env: Env, ops: seq<Op>, id: string, actor: string)
    requires Feasible(env, ops)
    ensures var past, got := History(env, ops), Get(Run(env, ops), id, actor);
            if !TakesPart(past, id, actor) then got == Err(NotFound)
            else
              && got.Ok? && got.value.0 == RecordTold(env, past, id)
              && EntriesFor(got.value.1) == EntriesAbout(LogTold(env, past), id)
  {
    var s, past := Run(env, ops), History(env, ops);
    StateIsTold(env, ops);
    assert DocumentTold(env, s, past, id);
    EventsAbout(s.audit, id);
    assert EntriesFor(s.audit) == LogTold(env, past);
  }
}
