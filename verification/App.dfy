/** The document service as the source runs it: one object whose maps and lists the operations update in place.
    Each method is tied to the function of the same name in Service.dfy and keeps the invariant. */
module App {
  import opened Domain
  import opened AuditChain
  import opened Phone
  import S = Service
  import opened ServiceInvariant
  import opened Store

  class App {
    const env: Env
    const signingURL: string
    const objects: MemoryStore
    var docs: map<string, Document>
    var links: map<string, S.Link>
    var challenges: map<string, S.Challenge>
    var signatures: seq<Signature>
    var audit: seq<AuditEvent>

    function State(): S.State
      reads this, objects
    {
      S.State(docs, links, challenges, signatures, audit, objects.objects)
    }

    /** The store hashes as the service does, and the reachable-state invariant holds. */
    ghost predicate Valid()
      reads this, objects
    {
      objects.env == env && Inv(env, State())
    }

    constructor (env: Env, base: string)
      ensures Valid() && fresh(objects) && State() == S.INITIAL && this.env == env
    {
      this.env := env;
      signingURL := if base == "" then "http://localhost:8080" else base;
      objects := new MemoryStore(env);
      docs, links, challenges, signatures, audit := map[], map[], map[], [], [];
    }

    method AuditLocked(documentID: string, actor: string, action: string, payload: Digest, eventID: string, now: nat)
      modifies this`audit
      ensures audit == old(audit) + [NextEvent(env, old(audit), eventID, documentID, actor, action, payload, now)]
      ensures var previous := if old(audit) == [] then "" else old(audit)[|old(audit)| - 1].hash;
              audit[|old(audit)|] ==
                AuditEvent(eventID, documentID, actor, action, payload, previous,
                           env.sha(eventID + documentID + action + payload + previous + env.render(now)), now)
    {
      var previous := "";
      if |audit| > 0 {
        previous := audit[|audit| - 1].hash;
      }
      var e := AuditEvent(eventID, documentID, actor, action, payload, previous, "", now);
      e := e.(hash := env.sha(Preimage(env, e)));
      audit := audit + [e];
    }

    method CreateDocument(x: S.Draft, id: string, eventID: string, now: nat) returns (r: Result<Document>)
      modifies this
      ensures var o := S.CreateDocument(env, old(State()), x, id, eventID, now); State() == o.state && r == o.result
    {
      var phone := NormalizePhone(x.phone);
      if x.customerID == "" || x.title == "" || !ValidPhone(phone) || x.content == "" || x.agreement == "" {
        return Err(MissingField);
      }
      if |x.title| > S.MAX_TITLE || |x.content| > S.MAX_CONTENT {
        return Err(TooLarge);
      }
      if x.template !in S.TEMPLATE_VERSIONS {
        return Err(UnknownTemplate);
      }
      var d := Document(id, x.title, x.template, S.TEMPLATE_VERSIONS[x.template], x.customerID, phone,
                        env.sha(x.content), "", x.amount, Draft, x.agreement, now);
      docs := docs[d.id := d];
      AuditLocked(d.id, x.customerID, CREATED, env.sha(x.content), eventID, now);
      return Ok(d);
    }

    method Send(id: string, actor: string, token: string, eventID: string, now: nat) returns (r: Result<string>)
      modifies this
      ensures var o := S.Send(env, old(State()), id, actor, token, eventID, now);
              State() == o.state && r == (if o.result.Ok? then Ok(signingURL + "/sign/" + o.result.value) else o.result)
    {
      if id !in docs || docs[id].customerID != actor {
        return Err(NotFound);
      }
      if docs[id].status != Draft {
        return Err(NotDraft);
      }
      links := links[token := S.Link(id, now + S.LINK_LIFETIME)];
      docs := docs[id := docs[id].(status := Sent)];
      AuditLocked(id, actor, SENT, env.sha(token), eventID, now);
      return Ok(signingURL + "/sign/" + token);
    }

    method RequestPEP(token: string, code: string, eventID: string, now: nat) returns (r: Result<string>)
      modifies this
      ensures var o := S.RequestPEP(env, old(State()), token, code, eventID, now); State() == o.state && r == o.result
    {
      if token !in links || now > links[token].expiresAt {
        return Err(InvalidLink);
      }
      challenges := challenges[token := S.Challenge(env.sha(code), now + S.OTP_LIFETIME)];
      AuditLocked(links[token].documentID, "contractor", CHALLENGED, env.sha(token), eventID, now);
      return Ok(code);
    }

    method Upload(id: string, actor: string, data: array<char>, eventID: string, now: nat) returns (r: Result<Document>)
      requires objects.env == env
      modifies this, objects
      ensures var o := S.Upload(env, old(State()), id, actor, data[..], eventID, now);
              State() == o.state && r == o.result
    {
      if id !in docs || docs[id].customerID != actor {
        return Err(NotFound);
      }
      var d := docs[id];
      if d.status != Draft {
        return Err(NotDraft);
      }
      var key := S.ObjectKey(d.id);
      var put := objects.Put(key, data);
      if put.Err? {
        return Err(put.error);
      }
      d := d.(objectKey := key, contentHash := put.value);
      docs := docs[id := d];
      AuditLocked(d.id, actor, UPLOADED, put.value, eventID, now);
      return Ok(d);
    }

    method Download(id: string, actor: string) returns (r: Result<array<char>>)
      ensures match S.Download(env, State(), id, actor)
              case Err(e) => r == Err(e)
              case Ok(data) => r.Ok? && fresh(r.value) && r.value[..] == data
    {
      if id !in docs {
        return Err(NotFound);
      }
      var d := docs[id];
      if actor == "" || (actor != d.customerID && actor != d.contractorPhone) {
        return Err(NotFound);
      }
      if d.objectKey == "" {
        return Err(NoFile);
      }
      r := objects.Get(d.objectKey);
      if r.Ok? && env.sha(r.value[..]) != d.contentHash {
        r := Err(IntegrityFailed);
      }
    }

    method ConfirmPEP(c: S.Confirmation, agreedID: string, signedID: string, now: nat) returns (r: Result<Document>)
      modifies this
      ensures var o := S.ConfirmPEP(env, old(State()), c, agreedID, signedID, now); State() == o.state && r == o.result
    {
      var validLink := c.token in links;
      var found := validLink && links[c.token].documentID in docs;
      var validOtp :=
        c.token in challenges && now <= challenges[c.token].expiresAt && challenges[c.token].digest == env.sha(c.code);
      if !validLink || now > links[c.token].expiresAt || !found || !validOtp {
        return Err(InvalidOtp);
      }
      var id := links[c.token].documentID;
      var d := docs[id];
      if c.contractorID == "" || !c.accepted {
        return Err(MissingIdentity);
      }
      if c.contractorID != d.contractorPhone {
        return Err(WrongContractor);
      }
      if d.status != Sent {
        return Err(NotSent);
      }
      var evidence := PepEvidence(env, d, c.contractorID, c.ip, c.userAgent, now);
      signatures := signatures + [Signature(id, c.contractorID, Pep, evidence, "", now)];
      d := d.(status := PepSigned);
      docs := docs[id := d];
      challenges := challenges - {c.token};
      AuditLocked(id, c.contractorID, AGREED, env.sha(d.agreementVersion), agreedID, now);
      AuditLocked(id, c.contractorID, PEP_SIGNED, evidence, signedID, now);
      return Ok(d);
    }

    method StartUKEP(id: string, actor: string, reference: string, eventID: string, now: nat)
      returns (r: Result<Document>)
      modifies this
      ensures var o := S.StartUKEP(env, old(State()), id, actor, reference, eventID, now);
              State() == o.state && r == o.result
    {
      if id !in docs || docs[id].customerID != actor {
        return Err(NotFound);
      }
      if docs[id].status != PepSigned {
        return Err(PepRequired);
      }
      docs := docs[id := docs[id].(status := AwaitingUkep)];
      AuditLocked(id, actor, UKEP_REQUESTED, env.sha(reference), eventID, now);
      return Ok(docs[id]);
    }

    method CompleteUKEP(id: string, actor: string, reference: string, eventID: string, now: nat)
      returns (r: Result<Document>)
      modifies this
      ensures var o := S.CompleteUKEP(env, old(State()), id, actor, reference, eventID, now);
              State() == o.state && r == o.result
    {
      if id !in docs || docs[id].customerID != actor || docs[id].status != AwaitingUkep {
        return Err(InvalidCompletion);
      }
      var d := docs[id];
      signatures := signatures + [Signature(id, actor, Ukep, env.sha(d.contentHash + reference), reference, now)];
      docs := docs[id := d.(status := Completed)];
      AuditLocked(id, actor, UKEP_SIGNED, env.sha(reference), eventID, now);
      return Ok(docs[id]);
    }

    /** Any operation, as a step of the service: the object moves exactly as the state machine does and stays valid. */
    method Perform(op: S.Op)
      requires Valid() && S.Drawn(State(), op)
      modifies this, objects
      ensures State() == S.Apply(env, old(State()), op) && Valid()
    {
      ApplyKeepsInv(env, State(), op);
      match op {
        case CreateOp(x, id, e, now) => var _ := CreateDocument(x, id, e, now);
        case SendOp(id, actor, token, e, now) => var _ := Send(id, actor, token, e, now);
        case RequestOp(token, code, e, now) => var _ := RequestPEP(token, code, e, now);
        case UploadOp(id, actor, data, e, now) =>
          var buffer := new char[|data|](i requires 0 <= i < |data| => data[i]);
          assert buffer[..] == data;
          var _ := Upload(id, actor, buffer, e, now);
        case ConfirmOp(c, e1, e2, now) => var _ := ConfirmPEP(c, e1, e2, now);
        case StartOp(id, actor, ref, e, now) => var _ := StartUKEP(id, actor, ref, e, now);
        case CompleteOp(id, actor, ref, e, now) => var _ := CompleteUKEP(id, actor, ref, e, now);
      }
    }

    method Get(id: string, actor: string) returns (r: Result<(Document, seq<AuditEvent>)>)
      ensures r == S.Get(State(), id, actor)
    {
      if id !in docs {
        return Err(NotFound);
      }
      var d := docs[id];
      if actor == "" || (actor != d.customerID && actor != d.contractorPhone) {
        return Err(NotFound);
      }
      var events := [];
      for i := 0 to |audit|
        invariant events == EventsOf(audit[..i], id)
      {
        assert audit[..i + 1] == audit[..i] + [audit[i]];
        EventsOfAppend(audit[..i], audit[i], id);
        if audit[i].documentID == id {
          events := events + [audit[i]];
        }
      }
      assert audit[..|audit|] == audit;
      return Ok((d, events));
    }

    /** For a participant, whether the document's events link up from the empty hash and carry their own hashes. */
    method VerifyAudit(id: string, actor: string) returns (r: Result<bool>)
      ensures r.Ok? <==>
                && id in docs && actor != ""
                && (actor == docs[id].customerID || actor == docs[id].contractorPhone)
      ensures r.Err? ==> r.error == NotFound
      ensures r.Ok? ==> (r.value <==> Verified(env, EventsOf(audit, id)))
      ensures Valid() && NoCollision(env, audit, audit) && r.Ok? ==> (r.value <==> EventsOf(audit, id) <= audit)
    {
      if Valid() && NoCollision(env, audit, audit) { VerifiesIffInitialSegment(env, audit, id); }
      var got := Get(id, actor);
      if got.Err? {
        return Err(got.error);
      }
      var ok := VerifyEvents(env, got.value.1);
      return Ok(ok);
    }
  }
}
