/** Any number of service instances over one database. Each operation is cut at its database calls: between two
    calls an instance holds its lock and its position, while the other instances may take any number of steps.
    A call may commit, commit without the caller learning of it, or fail; an instance may crash at any point and
    restart with empty caches. A crash settles the call in flight at once: it has landed, or it never will. */
module Cluster {
  import opened Domain
  import opened AuditChain
  import opened Tables

  /** Where an instance is inside an operation, and what the rest of the operation needs. */
  datatype Position =
    | Idle
    | Creating(id: string)
    | Linking(id: string, token: string)
    | SavingStatus(id: string, claim: Option<string>)
    | SigningPep(id: string, token: string)
    | UsingLink(id: string, token: string)
    | SigningUkep(id: string)

  /** `links` are the tokens the instance issued, with their documents. */
  datatype Instance = Instance(docs: map<string, Document>, links: map<string, string>, at: Position)

  const RESTARTED := Instance(map[], map[], Idle)

  /** `origins`, `issued`, `claimed` and `confirmed` are history: what never changes in every document
      drawn so far, the tokens drawn, the tokens whose link was used with success reported, and the tokens of
      successful confirmations in order. */
  datatype World = World(
    env: Env, db: Tables, instances: seq<Instance>,
    origins: map<string, Document>, issued: set<string>, claimed: set<string>, confirmed: seq<string>)

  datatype Step =
    | Load(id: string, actor: string)
    | BeginCreate(d: Document)
    | FinishCreate(e: AuditEvent, rowID: string, now: nat, call: Call)
    | BeginSend(id: string, actor: string, token: string)
    | FinishLink(expiresAt: nat, call: Call)
    | BeginUpload(id: string, actor: string, key: string, digest: string)
    | FinishStatus(e: AuditEvent, rowID: string, call: Call)
    | BeginConfirm(token: string, contractorID: string, now: nat)
    | FinishPep(ip: string, agent: string, signedAt: nat, call: Call)
    | FinishUseLink(now: nat, call: Call)
    | BeginStart(id: string, actor: string)
    | BeginComplete(id: string, actor: string)
    | FinishUkep(reference: string, signedAt: nat, call: Call)
    | Crash
    | Cleanup(now: nat)
    | Unrelated(otp: map<OtpKey, OtpRow>, sessions: map<string, SessionRow>, subscriptions: map<string, Subscription>)

  /** The columns of a document that no call ever rewrites, as the database keeps them. */
  function Origin(d: Document): Document { AsStored(d).(status := Draft, objectKey := "", contentHash := "") }

  function PepBy(env: Env, d: Document, ip: string, agent: string, at: nat): Signature {
    Signature(d.id, d.contractorPhone, Pep, PepEvidence(env, d, d.contractorPhone, ip, agent, at), "", at)
  }

  function UkepBy(env: Env, d: Document, reference: string, at: nat): Signature {
    Signature(d.id, d.customerID, Ukep, UkepEvidence(env, d, reference), reference, at)
  }

  /** The document a link leads to: from the instance's own links, else from an unused, unexpired row. */
  function LinkTarget(w: World, i: Instance, token: string, now: nat): Option<string> {
    if token in i.links then Some(i.links[token])
    else if LoadSigningLink(w.db, token, now).Some? then Some(LoadSigningLink(w.db, token, now).value.0)
    else None
  }

  /** The own document of the actor with the given status, in the instance's cache. */
  predicate Holds(i: Instance, id: string, actor: string, status: Status) {
    i.at == Idle && id in i.docs && i.docs[id].customerID == actor && i.docs[id].status == status
  }

  function Put(w: World, n: nat, i: Instance): World
    requires n < |w.instances|
  {
    w.(instances := w.instances[n := i])
  }

  function SetStatus(i: Instance, id: string, status: Status): map<string, Document>
    requires id in i.docs
  {
    i.docs[id := i.docs[id].(status := status)]
  }

  /** The signature is stored first; only when that is known to have succeeded does the cached status move. */
  function Sign(w: World, n: nat, id: string, g: Signature, call: Call, status: Status, next: Position): World
    requires n < |w.instances| && id in w.instances[n].docs
  {
    var i, result := w.instances[n], SaveSignature(w.db, g);
    var v := w.(db := Landed(w.db, result, call));
    if Succeeds(result, call) then Put(v, n, i.(docs := SetStatus(i, id, status), at := next))
    else Put(v, n, i.(at := Idle))
  }

  /** Instance `n` takes a step; a step that is not possible where it stands changes nothing. */
  function Next(w: World, n: nat, s: Step): (v: World)
    requires n < |w.instances|
    ensures |v.instances| == |w.instances| && v.env == w.env
  {
    var i := w.instances[n];
    match s
    case Load(id, actor) =>
      if i.at == Idle && id !in i.docs && actor != "" && LoadDocument(w.db, id, actor).Some?
      then Put(w, n, i.(docs := i.docs[id := LoadDocument(w.db, id, actor).value])) else w
    case BeginCreate(d) =>
      if i.at == Idle && d.status == Draft && d.id !in w.origins
      then Put(w.(origins := w.origins[d.id := Origin(d)]), n, i.(docs := i.docs[d.id := d], at := Creating(d.id)))
      else w
    case FinishCreate(e, rowID, now, call) =>
      if i.at.Creating? && i.at.id in i.docs
      then Put(w.(db := Landed(w.db, SaveDocument(w.db, i.docs[i.at.id], e, rowID, now), call)), n, i.(at := Idle))
      else w
    case BeginSend(id, actor, token) =>
      if Holds(i, id, actor, Draft) && token !in w.issued
      then Put(w.(issued := w.issued + {token}), n, i.(links := i.links[token := id], at := Linking(id, token))) else w
    case FinishLink(expiresAt, call) =>
      if i.at.Linking? && i.at.id in i.docs then
        var result := SaveSigningLink(w.db, i.at.token, i.at.id, expiresAt);
        var v := w.(db := Landed(w.db, result, call));
        if Succeeds(result, call)
        then Put(v, n, i.(docs := SetStatus(i, i.at.id, Sent), at := SavingStatus(i.at.id, None)))
        else Put(v, n, i.(at := Idle))
      else w
    case BeginUpload(id, actor, key, digest) =>
      if Holds(i, id, actor, Draft)
      then Put(w, n, i.(docs := i.docs[id := i.docs[id].(objectKey := key, contentHash := digest)],
                        at := SavingStatus(id, None))) else w
    case FinishStatus(e, rowID, call) =>
      if i.at.SavingStatus? && i.at.id in i.docs then
        var result := SaveStatus(w.db, i.docs[i.at.id], e, rowID);
        var v := w.(db := Landed(w.db, result, call),
                    confirmed := if Succeeds(result, call) && i.at.claim.Some? then w.confirmed + [i.at.claim.value]
                                 else w.confirmed);
        Put(v, n, i.(at := Idle))
      else w
    case BeginConfirm(token, contractorID, now) =>
      var target := LinkTarget(w, i, token, now);
      if && i.at == Idle && target.Some? && target.value in i.docs && contractorID != ""
         && i.docs[target.value].contractorPhone == contractorID && i.docs[target.value].status == Sent
      then Put(w, n, i.(at := SigningPep(target.value, token))) else w
    case FinishPep(ip, agent, signedAt, call) =>
      if i.at.SigningPep? && i.at.id in i.docs
      then Sign(w, n, i.at.id, PepBy(w.env, i.docs[i.at.id], ip, agent, signedAt), call,
                PepSigned, UsingLink(i.at.id, i.at.token)) else w
    case FinishUseLink(now, call) =>
      if i.at.UsingLink? then
        var result := UseSigningLink(w.db, i.at.token, now);
        var v := w.(db := Landed(w.db, result, call));
        if Succeeds(result, call)
        then Put(v.(claimed := v.claimed + {i.at.token}), n, i.(at := SavingStatus(i.at.id, Some(i.at.token))))
        else Put(v, n, i.(at := Idle))
      else w
    case BeginStart(id, actor) =>
      if Holds(i, id, actor, PepSigned)
      then Put(w, n, i.(docs := SetStatus(i, id, AwaitingUkep), at := SavingStatus(id, None))) else w
    case BeginComplete(id, actor) =>
      if Holds(i, id, actor, AwaitingUkep) then Put(w, n, i.(at := SigningUkep(id))) else w
    case FinishUkep(reference, signedAt, call) =>
      if i.at.SigningUkep? && i.at.id in i.docs
      then Sign(w, n, i.at.id, UkepBy(w.env, i.docs[i.at.id], reference, signedAt), call,
                Completed, SavingStatus(i.at.id, None)) else w
    case Crash => Put(w, n, RESTARTED)
    case Cleanup(now) => w.(db := CleanupExpired(w.db, now))
    case Unrelated(otp, sessions, subscriptions) =>
      w.(db := w.db.(otp := otp, sessions := sessions, subscriptions := subscriptions))
  }

  /** `size` freshly started instances over an empty database. */
  function Initial(env: Env, size: nat): World {
    World(env, EMPTY, seq(size, _ => RESTARTED), map[], {}, {}, [])
  }

  /** A run: who takes which step, in order. */
  type Schedule = seq<(nat, Step)>

  function Run(env: Env, size: nat, schedule: Schedule): (w: World)
    ensures |w.instances| == size && w.env == env
  {
    if schedule == [] then Initial(env, size)
    else
      var w, turn := Run(env, size, schedule[..|schedule| - 1]), schedule[|schedule| - 1];
      if turn.0 < size then Next(w, turn.0, turn.1) else w
  }
}
