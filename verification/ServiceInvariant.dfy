/** What ties the service's documents, signatures, audit log and stored files together in every reachable state. */
module ServiceInvariant {
  import opened Domain
  import opened AuditChain
  import opened Service

  // ---- The log replays to the record ----

  /** What the log tells of a document: also the evidence of its PEP and the hashed reference of its UKEP once
      signed. */
  datatype View = View(status: Status, contentHash: string, evidence: string, reference: string)

  function Fold(v: View, e: AuditEvent): View {
    if e.action == CREATED || e.action == UPLOADED then v.(contentHash := e.payloadHash)
    else if e.action == SENT then v.(status := Sent)
    else if e.action == PEP_SIGNED then v.(status := PepSigned, evidence := e.payloadHash)
    else if e.action == UKEP_REQUESTED then v.(status := AwaitingUkep)
    else if e.action == UKEP_SIGNED then v.(status := Completed, reference := e.payloadHash)
    else v
  }

  function Replay(events: seq<AuditEvent>): View {
    if events == [] then View(Status.Draft, "", "", "")
    else Fold(Replay(events[..|events| - 1]), events[|events| - 1])
  }

  lemma ReplayAppend(events: seq<AuditEvent>, e: AuditEvent)
    ensures Replay(events + [e]) == Fold(Replay(events), e)
  {
  }

  // ---- The signatures match the status ----

  function SignaturesOf(signatures: seq<Signature>, id: string): seq<Signature> {
    if signatures == [] then []
    else
      var last := signatures[|signatures| - 1];
      SignaturesOf(signatures[..|signatures| - 1], id) + if last.documentID == id then [last] else []
  }

  lemma SignaturesOfAppend(signatures: seq<Signature>, g: Signature, id: string)
    ensures SignaturesOf(signatures + [g], id) == SignaturesOf(signatures, id) + if g.documentID == id then [g] else []
  {
  }

  ghost predicate SignaturesMatch(env: Env, own: seq<Signature>, d: Document) {
    match d.status
    case Draft => own == []
    case Sent => own == []
    case PepSigned => |own| == 1 && IsPepOf(env, own[0], d)
    case AwaitingUkep => |own| == 1 && IsPepOf(env, own[0], d)
    case Completed => |own| == 2 && IsPepOf(env, own[0], d) && IsUkepOf(env, own[1], d)
  }

  // ---- The stored file matches the record ----

  predicate ContentStored(env: Env, objects: map<string, string>, d: Document) {
    d.objectKey == "" ||
    (d.objectKey == ObjectKey(d.id) && d.objectKey in objects && env.sha(objects[d.objectKey]) == d.contentHash)
  }

  lemma ObjectKeyInjective(a: string, b: string)
    requires |a| == |b| && ObjectKey(a) == ObjectKey(b)
    ensures a == b
  {
    assert ObjectKey(a)[10..10 + |a|] == a && ObjectKey(b)[10..10 + |b|] == b;
  }

  // ---- The invariant ----

  /** The record, in the terms the log is told in. */
  function ViewOf(env: Env, d: Document, signed: seq<Signature>): View {
    View(d.status, d.contentHash, if |signed| > 0 then signed[0].evidenceHash else "",
         if |signed| > 1 then env.sha(signed[1].providerReference) else "")
  }

  ghost predicate DocumentOk(env: Env, d: Document, own: seq<AuditEvent>, signed: seq<Signature>, objects: map<string,
                             string>)
  {
    && |d.id| == ID_LENGTH && IsDigest(d.contentHash) && |d.contractorPhone| == 12
    && Replay(own) == ViewOf(env, d, signed)
    && SignaturesMatch(env, signed, d)
    && ContentStored(env, objects, d)
  }

  ghost predicate OkAt(env: Env, s: State, id: string)
    requires id in s.docs
  {
    s.docs[id].id == id && DocumentOk(env, s.docs[id], EventsOf(s.audit, id), SignaturesOf(s.signatures, id), s.objects)
  }

  ghost predicate LogOk(env: Env, audit: seq<AuditEvent>) {
    Verified(env, audit) && AllWellFormed(audit)
  }

  ghost predicate Inv(env: Env, s: State) {
    && LogOk(env, s.audit)
    && (forall id | id in s.docs :: OkAt(env, s, id))
    && (forall e | e in s.audit :: e.documentID in s.docs)
    && (forall g | g in s.signatures :: g.documentID in s.docs)
    && (forall token | token in s.links :: s.links[token].documentID in s.docs)
  }

  // ---- Every operation keeps it ----

  /** `t` differs from `s` only in what concerns document `id`. */
  ghost predicate OnlyAbout(s: State, t: State, id: string) {
    && t.docs.Keys == s.docs.Keys + {id}
    && (forall other | other in s.docs && other != id ::
          && t.docs[other] == s.docs[other]
          && EventsOf(t.audit, other) == EventsOf(s.audit, other)
          && SignaturesOf(t.signatures, other) == SignaturesOf(s.signatures, other))
    && (forall e | e in t.audit :: e in s.audit || e.documentID == id)
    && (forall g | g in t.signatures :: g in s.signatures || g.documentID == id)
    && (forall token | token in t.links ::
          t.links[token].documentID == id || (token in s.links && t.links[token] == s.links[token]))
    && (forall key | key in s.objects && key != ObjectKey(id) :: key in t.objects && t.objects[key] == s.objects[key])
  }

  lemma ContentElsewhere(env: Env, s: State, t: State, id: string, other: string)
    requires OnlyAbout(s, t, id) && other in s.docs && other != id && |id| == ID_LENGTH && OkAt(env, s, other)
    ensures ContentStored(env, t.objects, s.docs[other])
  {
    if ObjectKey(id) == ObjectKey(other) { ObjectKeyInjective(id, other); }
  }

  lemma StepKeepsInv(env: Env, s: State, t: State, id: string)
    requires Inv(env, s) && OnlyAbout(s, t, id) && |id| == ID_LENGTH
    requires LogOk(env, t.audit) && OkAt(env, t, id)
    ensures Inv(env, t)
  {
    forall other | other in t.docs ensures OkAt(env, t, other) {
      if other != id {
        assert OkAt(env, s, other);
        ContentElsewhere(env, s, t, id, other);
      }
    }
  }

  lemma LoggedElsewhere(audit: seq<AuditEvent>, e: AuditEvent, docs: map<string, Document>)
    ensures forall other | other in docs && other != e.documentID ::
              EventsOf(audit + [e], other) == EventsOf(audit, other)
  {
  }

  lemma LinksOnlyAbout(s: State, id: string, token: string, expiresAt: nat)
    requires id in s.docs
    ensures OnlyAbout(s, s.(links := s.links[token := Link(id, expiresAt)]), id)
  {
  }

  lemma ChallengesOnlyAbout(s: State, id: string, challenges: map<string, Challenge>)
    requires id in s.docs
    ensures OnlyAbout(s, s.(challenges := challenges), id)
  {
  }

  lemma ObjectsOnlyAbout(s: State, id: string, data: string)
    requires id in s.docs
    ensures OnlyAbout(s, s.(objects := s.objects[ObjectKey(id) := data]), id)
  {
  }

  lemma SignaturesOnlyAbout(s: State, g: Signature)
    requires g.documentID in s.docs
    ensures OnlyAbout(s, s.(signatures := s.signatures + [g]), g.documentID)
    ensures SignaturesOf(s.signatures + [g], g.documentID) == SignaturesOf(s.signatures, g.documentID) + [g]
  {
  }

  lemma RecordOnlyAbout(s: State, d: Document, e: AuditEvent)
    requires e.documentID == d.id
    ensures OnlyAbout(s, Record(s, d.id, d, e), d.id)
    ensures Replay(EventsOf(Record(s, d.id, d, e).audit, d.id)) == Fold(Replay(EventsOf(s.audit, d.id)), e)
  {
  }

  lemma {:induction false} NoSignatures(signatures: seq<Signature>, id: string)
    requires forall g | g in signatures :: g.documentID != id
    ensures SignaturesOf(signatures, id) == []
  {
    if signatures != [] { NoSignatures(signatures[..|signatures| - 1], id); }
  }

  lemma {:induction false} NoEvents(audit: seq<AuditEvent>, id: string)
    requires forall e | e in audit :: e.documentID != id
    ensures EventsOf(audit, id) == []
  {
    if audit != [] { NoEvents(audit[..|audit| - 1], id); }
  }

  /** Recording a new version of an existing document keeps the invariant when the event tells the change. */
  lemma RecordKeepsInv(env: Env, s: State, t: State, d: Document, e: AuditEvent)
    requires Inv(env, s) && d.id in s.docs && e.documentID == d.id && LogOk(env, s.audit + [e])
    requires OnlyAbout(s, t, d.id) && t.audit == s.audit && t.docs == s.docs
    requires IsDigest(d.contentHash) && d.contractorPhone == s.docs[d.id].contractorPhone
    requires Fold(ViewOf(env, s.docs[d.id], SignaturesOf(s.signatures, d.id)), e) ==
               ViewOf(env, d, SignaturesOf(t.signatures, d.id))
    requires SignaturesMatch(env, SignaturesOf(t.signatures, d.id), d) && ContentStored(env, t.objects, d)
    ensures Inv(env, Record(t, d.id, d, e))
  {
    assert OkAt(env, s, d.id);
    RecordOnlyAbout(t, d, e);
    StepKeepsInv(env, s, Record(t, d.id, d, e), d.id);
  }

  lemma FoldByAction(v: View, e: AuditEvent)
    ensures e.action == UPLOADED ==> Fold(v, e) == v.(contentHash := e.payloadHash)
    ensures e.action == SENT ==> Fold(v, e) == v.(status := Sent)
    ensures e.action == PEP_SIGNED ==> Fold(v, e) == v.(status := PepSigned, evidence := e.payloadHash)
    ensures e.action == UKEP_REQUESTED ==> Fold(v, e) == v.(status := AwaitingUkep)
    ensures e.action == UKEP_SIGNED ==> Fold(v, e) == v.(status := Completed, reference := e.payloadHash)
    ensures e.action in {CHALLENGED, AGREED} ==> Fold(v, e) == v
  {
  }

  lemma CreateKeepsInv(env: Env, s: State, x: Service.Draft, id: string, eventID: string, now: nat)
    requires Inv(env, s) && |id| == |eventID| == ID_LENGTH && id !in s.docs
    ensures Inv(env, CreateDocument(env, s, x, id, eventID, now).state)
  {
    var o := CreateDocument(env, s, x, id, eventID, now);
    if o.result.Ok? {
      var d := o.result.value;
      var e := NextEvent(env, s.audit, eventID, id, x.customerID, CREATED, d.contentHash, now);
      ActionsAreActions();
      AppendKeepsVerified(env, s.audit, eventID, id, x.customerID, CREATED, env.sha(x.content), now);
      RecordOnlyAbout(s, d, e);
      NoEvents(s.audit, id);
      NoSignatures(s.signatures, id);
      StepKeepsInv(env, s, o.state, id);
    }
  }

  lemma SendKeepsInv(env: Env, s: State, id: string, actor: string, token: string, eventID: string, now: nat)
    requires Inv(env, s) && |eventID| == ID_LENGTH
    ensures Inv(env, Send(env, s, id, actor, token, eventID, now).state)
  {
    var o := Send(env, s, id, actor, token, eventID, now);
    if o.result.Ok? {
      assert OkAt(env, s, id);
      var d, e := s.docs[id].(status := Sent), NextEvent(env, s.audit, eventID, id, actor, SENT, env.sha(token), now);
      ActionsAreActions();
      AppendKeepsVerified(env, s.audit, eventID, id, actor, SENT, env.sha(token), now);
      FoldByAction(ViewOf(env, s.docs[id], SignaturesOf(s.signatures, id)), e);
      LinksOnlyAbout(s, id, token, now + LINK_LIFETIME);
      RecordKeepsInv(env, s, s.(links := s.links[token := Link(id, now + LINK_LIFETIME)]), d, e);
    }
  }

  lemma RequestIsRecord(env: Env, s: State, token: string, code: string, eventID: string, now: nat)
    returns (t: State, e: AuditEvent)
    requires RequestPEP(env, s, token, code, eventID, now).result.Ok?
    requires var id := s.links[token].documentID; id in s.docs && s.docs[id].id == id
    ensures t == s.(challenges := t.challenges)
    ensures e ==
              NextEvent(env, s.audit, eventID, s.links[token].documentID, "contractor", CHALLENGED, env.sha(token), now)
    ensures RequestPEP(env, s, token, code, eventID, now).state ==
              Record(t, s.links[token].documentID, s.docs[s.links[token].documentID], e)
  {
    var o := RequestPEP(env, s, token, code, eventID, now);
    e := o.state.audit[|s.audit|];
    t := s.(challenges := o.state.challenges);
    assert t.docs[e.documentID := t.docs[e.documentID]] == t.docs;
  }

  lemma RequestKeepsInv(env: Env, s: State, token: string, code: string, eventID: string, now: nat)
    requires Inv(env, s) && |eventID| == ID_LENGTH
    ensures Inv(env, RequestPEP(env, s, token, code, eventID, now).state)
  {
    if RequestPEP(env, s, token, code, eventID, now).result.Ok? {
      var id := s.links[token].documentID;
      assert OkAt(env, s, id);
      var t, e := RequestIsRecord(env, s, token, code, eventID, now);
      ActionsAreActions();
      AppendKeepsVerified(env, s.audit, eventID, id, "contractor", CHALLENGED, env.sha(token), now);
      FoldByAction(ViewOf(env, s.docs[id], SignaturesOf(s.signatures, id)), e);
      ChallengesOnlyAbout(s, id, t.challenges);
      RecordKeepsInv(env, s, t, s.docs[id], e);
    }
  }

  lemma UploadKeepsInv(env: Env, s: State, id: string, actor: string, data: string, eventID: string, now: nat)
    requires Inv(env, s) && |eventID| == ID_LENGTH
    ensures Inv(env, Upload(env, s, id, actor, data, eventID, now).state)
  {
    var o := Upload(env, s, id, actor, data, eventID, now);
    if o.result.Ok? {
      assert OkAt(env, s, id);
      var d := o.result.value;
      var e := NextEvent(env, s.audit, eventID, id, actor, UPLOADED, d.contentHash, now);
      ActionsAreActions();
      AppendKeepsVerified(env, s.audit, eventID, id, actor, UPLOADED, env.sha(data), now);
      FoldByAction(ViewOf(env, s.docs[id], SignaturesOf(s.signatures, id)), e);
      ObjectsOnlyAbout(s, id, data);
      RecordKeepsInv(env, s, s.(objects := o.state.objects), d, e);
    }
  }

  /** What a successful confirmation comes to: the signature and the agreement event, then the record and its event. */
  predicate AgreedStep(s: State, t: State, d: Document, agreed: AuditEvent, g: Signature, pep: AuditEvent) {
    && d.id in s.docs && s.docs[d.id] == d.(status := Sent) && d.status == PepSigned
    && agreed.documentID == d.id && agreed.action == AGREED && pep.documentID == d.id && pep.action == PEP_SIGNED
    && g.documentID == d.id && g.evidenceHash == pep.payloadHash
    && t == s.(signatures := s.signatures + [g], challenges := t.challenges, audit := s.audit + [agreed])
  }

  lemma LogOnlyAbout(s: State, e: AuditEvent)
    requires e.documentID in s.docs
    ensures OnlyAbout(s, s.(audit := s.audit + [e]), e.documentID)
  {
    LoggedElsewhere(s.audit, e, s.docs);
    assert s.docs.Keys == s.docs.Keys + {e.documentID};
  }

  lemma OnlyAboutBoth(s: State, t: State, u: State, id: string)
    requires OnlyAbout(s, t, id) && OnlyAbout(t, u, id)
    ensures OnlyAbout(s, u, id)
  {
  }

  lemma AgreedOnlyAbout(s: State, t: State, d: Document, agreed: AuditEvent, g: Signature, pep: AuditEvent)
    requires AgreedStep(s, t, d, agreed, g, pep)
    ensures OnlyAbout(s, Record(t, d.id, d, pep), d.id)
  {
    var signed := s.(signatures := t.signatures);
    var spent := signed.(challenges := t.challenges);
    SignaturesOnlyAbout(s, g);
    ChallengesOnlyAbout(signed, d.id, t.challenges);
    LogOnlyAbout(spent, agreed);
    RecordOnlyAbout(t, d, pep);
    OnlyAboutBoth(s, signed, spent, d.id);
    OnlyAboutBoth(s, spent, t, d.id);
    OnlyAboutBoth(s, t, Record(t, d.id, d, pep), d.id);
  }

  lemma AgreedReplays(audit: seq<AuditEvent>, agreed: AuditEvent, pep: AuditEvent, id: string)
    requires agreed.documentID == pep.documentID == id && agreed.action == AGREED && pep.action == PEP_SIGNED
    ensures Replay(EventsOf(audit + [agreed] + [pep], id)) ==
              Replay(EventsOf(audit, id)).(status := PepSigned, evidence := pep.payloadHash)
  {
    EventsOfAppend(audit, agreed, id);
    EventsOfAppend(audit + [agreed], pep, id);
    ReplayAppend(EventsOf(audit, id), agreed);
    ReplayAppend(EventsOf(audit, id) + [agreed], pep);
    FoldByAction(Replay(EventsOf(audit, id)), agreed);
    FoldByAction(Replay(EventsOf(audit, id)), pep);
  }

  lemma AgreedOk(env: Env, s: State, t: State, d: Document, agreed: AuditEvent, g: Signature, pep: AuditEvent)
    requires AgreedStep(s, t, d, agreed, g, pep) && OkAt(env, s, d.id) && IsPepOf(env, g, d)
    ensures OkAt(env, Record(t, d.id, d, pep), d.id)
  {
    AgreedReplays(s.audit, agreed, pep, d.id);
    SignaturesOfAppend(s.signatures, g, d.id);
  }

  lemma AgreedKeeps(env: Env, s: State, t: State, d: Document, agreed: AuditEvent, g: Signature, pep: AuditEvent)
    requires Inv(env, s) && AgreedStep(s, t, d, agreed, g, pep) && IsPepOf(env, g, d)
    requires LogOk(env, s.audit + [agreed] + [pep])
    ensures Inv(env, Record(t, d.id, d, pep))
  {
    assert OkAt(env, s, d.id);
    AgreedOnlyAbout(s, t, d, agreed, g, pep);
    AgreedOk(env, s, t, d, agreed, g, pep);
    StepKeepsInv(env, s, Record(t, d.id, d, pep), d.id);
  }

  lemma ConfirmKeepsInv(env: Env, s: State, c: Confirmation, agreedID: string, signedID: string, now: nat)
    requires Inv(env, s) && |agreedID| == |signedID| == ID_LENGTH
    ensures Inv(env, ConfirmPEP(env, s, c, agreedID, signedID, now).state)
  {
    var o := ConfirmPEP(env, s, c, agreedID, signedID, now);
    if o.result.Ok? {
      var id := s.links[c.token].documentID;
      assert OkAt(env, s, id);
      var d, g := o.result.value, o.state.signatures[|s.signatures|];
      var evidence := PepEvidence(env, s.docs[id], c.contractorID, c.ip, c.userAgent, now);
      var agreed, pep := ConfirmLogs(env, s.audit, id, c.contractorID, d.agreementVersion, evidence,
                                     agreedID, signedID, now);
      assert g.evidenceHash == PepEvidence(env, d, g.userID, c.ip, c.userAgent, g.signedAt);
      var t := s.(signatures := o.state.signatures, challenges := o.state.challenges, audit := s.audit + [agreed]);
      AgreedKeeps(env, s, t, d, agreed, g, pep);
    }
  }

  lemma ConfirmLogs(env: Env, audit: seq<AuditEvent>, id: string, contractor: string, agreement: string,
                    evidence: Digest,
                    agreedID: string, signedID: string, now: nat) returns (agreed: AuditEvent, pep: AuditEvent)
    requires LogOk(env, audit) && |id| == |agreedID| == |signedID| == ID_LENGTH
    ensures agreed == NextEvent(env, audit, agreedID, id, contractor, AGREED, env.sha(agreement), now)
    ensures pep == NextEvent(env, audit + [agreed], signedID, id, contractor, PEP_SIGNED, evidence, now)
    ensures agreed.documentID == pep.documentID == id && agreed.action == AGREED && pep.action == PEP_SIGNED
    ensures LogOk(env, audit + [agreed]) && LogOk(env, audit + [agreed] + [pep])
  {
    agreed := NextEvent(env, audit, agreedID, id, contractor, AGREED, env.sha(agreement), now);
    pep := NextEvent(env, audit + [agreed], signedID, id, contractor, PEP_SIGNED, evidence, now);
    ActionsAreActions();
    AppendKeepsVerified(env, audit, agreedID, id, contractor, AGREED, env.sha(agreement), now);
    AppendKeepsVerified(env, audit + [agreed], signedID, id, contractor, PEP_SIGNED, evidence, now);
  }

  lemma StartKeepsInv(env: Env, s: State, id: string, actor: string, reference: string, eventID: string, now: nat)
    requires Inv(env, s) && |eventID| == ID_LENGTH
    ensures Inv(env, StartUKEP(env, s, id, actor, reference, eventID, now).state)
  {
    var o := StartUKEP(env, s, id, actor, reference, eventID, now);
    if o.result.Ok? {
      assert OkAt(env, s, id);
      var d, e := o.result.value, NextEvent(env, s.audit, eventID, id, actor, UKEP_REQUESTED, env.sha(reference), now);
      ActionsAreActions();
      AppendKeepsVerified(env, s.audit, eventID, id, actor, UKEP_REQUESTED, env.sha(reference), now);
      FoldByAction(ViewOf(env, s.docs[id], SignaturesOf(s.signatures, id)), e);
      PepStays(env, SignaturesOf(s.signatures, id)[0], s.docs[id], d);
      RecordKeepsInv(env, s, s, d, e);
    }
  }

  lemma CompletedMatches(env: Env, own: seq<Signature>, g: Signature, d: Document, f: Document)
    requires SignaturesMatch(env, own, d) && d.status == AwaitingUkep && f == d.(status := Completed)
    requires IsUkepOf(env, g, f)
    ensures SignaturesMatch(env, own + [g], f)
    ensures ViewOf(env, f, own + [g]) ==
              ViewOf(env, d, own).(status := Completed, reference := env.sha(g.providerReference))
  {
    PepStays(env, own[0], d, f);
  }

  lemma CompleteKeepsInv(env: Env, s: State, id: string, actor: string, reference: string, eventID: string, now: nat)
    requires Inv(env, s) && |eventID| == ID_LENGTH
    ensures Inv(env, CompleteUKEP(env, s, id, actor, reference, eventID, now).state)
  {
    var o := CompleteUKEP(env, s, id, actor, reference, eventID, now);
    if o.result.Ok? {
      assert OkAt(env, s, id);
      var own, g := SignaturesOf(s.signatures, id), o.state.signatures[|s.signatures|];
      var d, e := o.result.value, NextEvent(env, s.audit, eventID, id, actor, UKEP_SIGNED, env.sha(reference), now);
      ActionsAreActions();
      AppendKeepsVerified(env, s.audit, eventID, id, actor, UKEP_SIGNED, env.sha(reference), now);
      SignaturesOnlyAbout(s, g);
      FoldByAction(ViewOf(env, s.docs[id], own), e);
      CompletedMatches(env, own, g, s.docs[id], d);
      RecordKeepsInv(env, s, s.(signatures := o.state.signatures), d, e);
    }
  }

  /** The invariant holds after every run. */
  lemma {:induction false} RunsKeepInv(env: Env, ops: seq<Op>)
    requires Feasible(env, ops)
    ensures Inv(env, Run(env, ops))
  {
    if ops != [] {
      RunsKeepInv(env, ops[..|ops| - 1]);
      ApplyKeepsInv(env, Run(env, ops[..|ops| - 1]), ops[|ops| - 1]);
    }
  }

  lemma ApplyKeepsInv(env: Env, s: State, op: Op)
    requires Inv(env, s) && Drawn(s, op)
    ensures Inv(env, Apply(env, s, op))
  {
    match op
    case CreateOp(x, id, e, now) => CreateKeepsInv(env, s, x, id, e, now);
    case SendOp(id, actor, token, e, now) => SendKeepsInv(env, s, id, actor, token, e, now);
    case RequestOp(token, code, e, now) => RequestKeepsInv(env, s, token, code, e, now);
    case UploadOp(id, actor, data, e, now) => UploadKeepsInv(env, s, id, actor, data, e, now);
    case ConfirmOp(c, e1, e2, now) => ConfirmKeepsInv(env, s, c, e1, e2, now);
    case StartOp(id, actor, ref, e, now) => StartKeepsInv(env, s, id, actor, ref, e, now);
    case CompleteOp(id, actor, ref, e, now) => CompleteKeepsInv(env, s, id, actor, ref, e, now);
  }
}
