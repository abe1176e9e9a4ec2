/** A document is never recorded as signed, in the database or in any instance's cache, before a signature over its
    content is stored. */
module SignatureFirst {
  import opened Domain
  import opened AuditChain
  import opened Tables
  import opened Cluster

  ghost predicate HasPep(env: Env, stored: seq<Signature>, d: Document) {
    exists g :: g in stored && g.documentID == d.id && IsPepOf(env, g, d)
  }

  predicate HasUkep(env: Env, stored: seq<Signature>, d: Document) {
    exists g | g in stored :: g.documentID == d.id && IsUkepOf(env, g, d)
  }

  /** The signatures a document's status speaks of are stored, by the right parties, over the content this copy has. */
  ghost predicate Backed(env: Env, stored: seq<Signature>, d: Document) {
    && (Rank(d.status) >= Rank(PepSigned) ==> HasPep(env, stored, d))
    && (d.status == Completed ==> HasUkep(env, stored, d))
  }

  lemma PepCarries(env: Env, stored: seq<Signature>, d: Document, f: Document)
    requires HasPep(env, stored, d) && f.id == d.id
    requires f.contentHash == d.contentHash && f.agreementVersion == d.agreementVersion
    requires f.contractorPhone == d.contractorPhone
    ensures HasPep(env, stored, f)
  {
    var g :| g in stored && g.documentID == d.id && IsPepOf(env, g, d);
    PepStays(env, g, d, f);
  }

  /** Only the content, the agreement, the parties and the status matter for it. */
  lemma BackedCarries(env: Env, stored: seq<Signature>, d: Document, f: Document)
    requires Backed(env, stored, d) && f.id == d.id && f.status == d.status
    requires f.contentHash == d.contentHash && Origin(f) == Origin(d)
    ensures Backed(env, stored, f)
  {
    assert f.agreementVersion == d.agreementVersion && f.contractorPhone == d.contractorPhone;
    assert f.customerID == d.customerID;
    if Rank(d.status) >= Rank(PepSigned) { PepCarries(env, stored, d, f); }
  }

  /** A copy of document `id`: what never changes agrees, and its status is backed. */
  ghost predicate Genuine(w: World, d: Document, id: string) {
    d.id == id && id in w.origins && w.origins[id] == Origin(d) && Backed(w.env, w.db.signatures, d)
  }

  ghost predicate AllGenuine(w: World, docs: map<string,
                             Document>) { forall id | id in docs :: Genuine(w, docs[id], id) }

  ghost predicate InstanceOk(w: World, i: Instance) {
    && AllGenuine(w, i.docs)
    && (i.at.Creating? ==> Stands(i, i.at.id, Draft))
    && (i.at.Linking? ==> Stands(i, i.at.id, Draft))
    && (i.at.SigningPep? ==> Stands(i, i.at.id, Sent))
    && (i.at.SigningUkep? ==> Stands(i, i.at.id, AwaitingUkep))
  }

  predicate Stands(i: Instance, id: string, status: Status) { id in i.docs && i.docs[id].status == status }

  ghost predicate Inv(w: World) {
    && AllGenuine(w, w.db.documents)
    && (forall n | 0 <= n < |w.instances| :: InstanceOk(w, w.instances[n]))
  }

  /** `v` has all the signatures and documents of `w`. */
  ghost predicate Extends(w: World, v: World) {
    && v.env == w.env
    && (forall g | g in w.db.signatures :: g in v.db.signatures)
    && (forall id | id in w.origins :: id in v.origins && v.origins[id] == w.origins[id])
  }

  /** To keep the invariant a step has only to extend the history and keep its own instance and the rows it writes in
      order. */
  lemma StepKeeps(w: World, v: World, n: nat)
    requires Inv(w) && Extends(w, v) && n < |w.instances| && |v.instances| == |w.instances|
    requires forall m | 0 <= m < |w.instances| && m != n :: v.instances[m] == w.instances[m]
    requires InstanceOk(v, v.instances[n])
    requires forall id | id in v.db.documents ::
               (id in w.db.documents && v.db.documents[id] == w.db.documents[id]) || Genuine(v, v.db.documents[id], id)
    ensures Inv(v)
  {
  }

  lemma CacheStaysGenuine(w: World, v: World, docs: map<string, Document>)
    requires AllGenuine(w, docs) && Extends(w, v)
    ensures AllGenuine(v, docs)
  {
  }

  /** A row that takes the mutable columns of a genuine copy becomes that copy, as the database keeps it. */
  lemma WrittenIsGenuine(w: World, d: Document, row: Document, id: string)
    requires Genuine(w, d, id) && Genuine(w, row, id)
    ensures Genuine(w, row.(status := d.status, objectKey := d.objectKey, contentHash := d.contentHash), id)
  {
    var written := row.(status := d.status, objectKey := d.objectKey, contentHash := d.contentHash);
    BackedCarries(w.env, w.db.signatures, d, written);
  }

  lemma StatusWriteKeeps(w: World, n: nat, e: AuditEvent, rowID: string, call: Call)
    requires Inv(w) && n < |w.instances|
    ensures Inv(Next(w, n, FinishStatus(e, rowID, call)))
  {
    var i, v := w.instances[n], Next(w, n, FinishStatus(e, rowID, call));
    assert InstanceOk(w, i);
    if i.at.SavingStatus? && i.at.id in i.docs {
      CacheStaysGenuine(w, v, i.docs);
      assert Genuine(v, i.docs[i.at.id], i.at.id);
      if i.at.id in w.db.documents {
        StaysGenuine(w, v, w.db.documents[i.at.id], i.at.id);
        WrittenIsGenuine(v, i.docs[i.at.id], w.db.documents[i.at.id], i.at.id);
      }
      StepKeeps(w, v, n);
    }
  }

  lemma StaysGenuine(w: World, v: World, d: Document, id: string)
    requires Genuine(w, d, id) && Extends(w, v)
    ensures Genuine(v, d, id)
  {
  }

  lemma CacheTakes(w: World, v: World, docs: map<string, Document>, id: string, f: Document)
    requires AllGenuine(w, docs) && Extends(w, v) && Genuine(v, f, id)
    ensures AllGenuine(v, docs[id := f])
  {
    CacheStaysGenuine(w, v, docs);
  }

  lemma SignExtends(w: World, n: nat, id: string, g: Signature, call: Call, status: Status, next: Position)
    requires n < |w.instances| && id in w.instances[n].docs
    ensures var v := Sign(w, n, id, g, call, status, next);
            && Extends(w, v) && v.db.documents == w.db.documents && v.origins == w.origins
            && (Succeeds(SaveSignature(w.db, g), call) ==> v.db.signatures == w.db.signatures + [g])
  {
  }

  /** Storing a signature of document `id` keeps the invariant, whatever becomes of the call, when it backs the new
      status. */
  lemma SignKeeps(w: World, n: nat, id: string, g: Signature, call: Call, status: Status, next: Position)
    requires Inv(w) && n < |w.instances| && id in w.instances[n].docs
    requires Backed(w.env, w.db.signatures + [g], w.instances[n].docs[id].(status := status))
    requires next.UsingLink? || next.SavingStatus?
    ensures Inv(Sign(w, n, id, g, call, status, next))
  {
    var i, v := w.instances[n], Sign(w, n, id, g, call, status, next);
    SignExtends(w, n, id, g, call, status, next);
    assert InstanceOk(w, i) && Genuine(w, i.docs[id], id);
    CacheStaysGenuine(w, v, i.docs);
    if Succeeds(SaveSignature(w.db, g), call) { CacheTakes(w, v, i.docs, id, i.docs[id].(status := status)); }
    StepKeeps(w, v, n);
  }

  lemma MorePep(env: Env, stored: seq<Signature>, g: Signature, d: Document)
    requires HasPep(env, stored, d) || (g.documentID == d.id && IsPepOf(env, g, d))
    ensures HasPep(env, stored + [g], d)
  {
    if HasPep(env, stored, d) {
      var pep :| pep in stored && pep.documentID == d.id && IsPepOf(env, pep, d);
      assert pep in stored + [g];
    } else {
      assert g in stored + [g];
    }
  }

  lemma PepKeeps(w: World, n: nat, s: Step)
    requires Inv(w) && n < |w.instances| && s.FinishPep?
    ensures Inv(Next(w, n, s))
  {
    var i := w.instances[n];
    assert InstanceOk(w, i);
    if i.at.SigningPep? && i.at.id in i.docs {
      var id := i.at.id;
      var d, g := i.docs[id].(status := PepSigned), PepBy(w.env, i.docs[id], s.ip, s.agent, s.signedAt);
      assert Genuine(w, i.docs[id], id);
      assert g.evidenceHash == PepEvidence(w.env, d, g.userID, s.ip, s.agent, g.signedAt);
      MorePep(w.env, w.db.signatures, g, d);
      SignKeeps(w, n, id, g, s.call, PepSigned, UsingLink(id, i.at.token));
    }
  }

  lemma UkepKeeps(w: World, n: nat, s: Step)
    requires Inv(w) && n < |w.instances| && s.FinishUkep?
    ensures Inv(Next(w, n, s))
  {
    var i := w.instances[n];
    assert InstanceOk(w, i);
    if i.at.SigningUkep? && i.at.id in i.docs {
      var id := i.at.id;
      var d, g := i.docs[id].(status := Completed), UkepBy(w.env, i.docs[id], s.reference, s.signedAt);
      assert Genuine(w, i.docs[id], id);
      PepCarries(w.env, w.db.signatures, i.docs[id], d);
      MorePep(w.env, w.db.signatures, g, d);
      assert g in w.db.signatures + [g] && IsUkepOf(w.env, g, d);
      SignKeeps(w, n, id, g, s.call, Completed, SavingStatus(id, None));
    }
  }

  lemma StoredIsGenuine(w: World, d: Document, id: string)
    requires Genuine(w, d, id)
    ensures Genuine(w, AsStored(d), id)
  {
    BackedCarries(w.env, w.db.signatures, d, AsStored(d));
  }

  lemma BeginCreateKeeps(w: World, n: nat, s: Step)
    requires Inv(w) && n < |w.instances| && s.BeginCreate?
    ensures Inv(Next(w, n, s))
  {
    var i, v := w.instances[n], Next(w, n, s);
    assert InstanceOk(w, i);
    if v != w {
      assert Genuine(v, s.d, s.d.id);
      CacheTakes(w, v, i.docs, s.d.id, s.d);
      StepKeeps(w, v, n);
    }
  }

  lemma CreateKeeps(w: World, n: nat, s: Step)
    requires Inv(w) && n < |w.instances| && s.FinishCreate?
    ensures Inv(Next(w, n, s))
  {
    var i, v := w.instances[n], Next(w, n, s);
    assert InstanceOk(w, i);
    if i.at.Creating? && i.at.id in i.docs {
      CacheStaysGenuine(w, v, i.docs);
      StoredIsGenuine(v, i.docs[i.at.id], i.at.id);
      StepKeeps(w, v, n);
    }
  }

  lemma BeginSendKeeps(w: World, n: nat, s: Step)
    requires Inv(w) && n < |w.instances| && s.BeginSend?
    ensures Inv(Next(w, n, s))
  {
  }

  lemma LinkKeeps(w: World, n: nat, s: Step)
    requires Inv(w) && n < |w.instances| && s.FinishLink?
    ensures Inv(Next(w, n, s))
  {
    var i, v := w.instances[n], Next(w, n, s);
    assert InstanceOk(w, i);
    if i.at.Linking? {
      if v.instances[n].at == Idle {
        SameRecordsKeep(w, v, n);
      } else {
        assert Genuine(w, i.docs[i.at.id], i.at.id);
        CacheTakes(w, v, i.docs, i.at.id, i.docs[i.at.id].(status := Sent));
        StepKeeps(w, v, n);
      }
    }
  }

  lemma UploadKeeps(w: World, n: nat, s: Step)
    requires Inv(w) && n < |w.instances| && s.BeginUpload?
    ensures Inv(Next(w, n, s))
  {
  }

  lemma StartKeeps(w: World, n: nat, s: Step)
    requires Inv(w) && n < |w.instances| && s.BeginStart?
    ensures Inv(Next(w, n, s))
  {
    var i, v := w.instances[n], Next(w, n, s);
    assert InstanceOk(w, i);
    if Holds(i, s.id, s.actor, PepSigned) {
      var d := i.docs[s.id].(status := AwaitingUkep);
      assert Genuine(w, i.docs[s.id], s.id);
      PepCarries(w.env, w.db.signatures, i.docs[s.id], d);
      CacheTakes(w, v, i.docs, s.id, d);
      StepKeeps(w, v, n);
    }
  }

  lemma CompleteKeeps(w: World, n: nat, s: Step)
    requires Inv(w) && n < |w.instances| && s.BeginComplete?
    ensures Inv(Next(w, n, s))
  {
  }

  lemma BeginConfirmKeeps(w: World, n: nat, s: Step)
    requires Inv(w) && n < |w.instances| && s.BeginConfirm?
    ensures Inv(Next(w, n, s))
  {
  }

  lemma SameRecordsKeep(w: World, v: World, n: nat)
    requires Inv(w) && n < |w.instances| && |v.instances| == |w.instances|
    requires forall m | 0 <= m < |w.instances| && m != n :: v.instances[m] == w.instances[m]
    requires v.env == w.env && v.db.documents == w.db.documents && v.db.signatures == w.db.signatures
    requires v.origins == w.origins
    requires v.instances[n].docs == w.instances[n].docs
    requires (v.instances[n].at == Idle || v.instances[n].at.SavingStatus?)
    ensures Inv(v)
  {
    assert InstanceOk(w, w.instances[n]);
    CacheStaysGenuine(w, v, w.instances[n].docs);
    StepKeeps(w, v, n);
  }

  lemma UseLinkKeeps(w: World, n: nat, s: Step)
    requires Inv(w) && n < |w.instances| && s.FinishUseLink?
    ensures Inv(Next(w, n, s))
  {
    if w.instances[n].at.UsingLink? { SameRecordsKeep(w, Next(w, n, s), n); }
  }

  lemma OutsideKeeps(w: World, n: nat, s: Step)
    requires Inv(w) && n < |w.instances| && (s.Load? || s.Crash? || s.Cleanup? || s.Unrelated?)
    ensures Inv(Next(w, n, s))
  {
    var i, v := w.instances[n], Next(w, n, s);
    assert InstanceOk(w, i);
    CacheStaysGenuine(w, v, i.docs);
    StepKeeps(w, v, n);
  }

  lemma NextKeeps(w: World, n: nat, s: Step)
    requires Inv(w) && n < |w.instances|
    ensures Inv(Next(w, n, s))
  {
    match s
    case FinishStatus(e, rowID, call) => StatusWriteKeeps(w, n, e, rowID, call);
    case FinishPep(_, _, _, _) => PepKeeps(w, n, s);
    case FinishUkep(_, _, _) => UkepKeeps(w, n, s);
    case BeginCreate(_) => BeginCreateKeeps(w, n, s);
    case FinishCreate(_, _, _, _) => CreateKeeps(w, n, s);
    case BeginSend(_, _, _) => BeginSendKeeps(w, n, s);
    case FinishLink(_, _) => LinkKeeps(w, n, s);
    case BeginUpload(_, _, _, _) => UploadKeeps(w, n, s);
    case BeginStart(_, _) => StartKeeps(w, n, s);
    case BeginComplete(_, _) => CompleteKeeps(w, n, s);
    case BeginConfirm(_, _, _) => BeginConfirmKeeps(w, n, s);
    case FinishUseLink(_, _) => UseLinkKeeps(w, n, s);
    case _ => OutsideKeeps(w, n, s);
  }

  lemma {:induction false} RunsKeep(env: Env, size: nat, schedule: Schedule)
    ensures Inv(Run(env, size, schedule))
  {
    if schedule != [] {
      var turn := schedule[|schedule| - 1];
      RunsKeep(env, size, schedule[..|schedule| - 1]);
      if turn.0 < size { NextKeeps(Run(env, size, schedule[..|schedule| - 1]), turn.0, turn.1); }
    }
  }

  /** Under every interleaving of any number of instances, with failing calls and crashes: for a row at pep_signed or
      beyond, a signature by its contractor is stored, for a completed row also one by its customer, each with evidence
      of the very content the row has; and the same goes for every cached copy and the content that copy has. */
  lemma {:induction false} SignatureBeforeStatus(env: Env, size: nat, schedule: Schedule, id: string)
    ensures var w := Run(env, size, schedule);
            && (id in w.db.documents ==>
                w.db.documents[id].id == id && Backed(w.env, w.db.signatures, w.db.documents[id]))
            && (forall n | 0 <= n < size && id in w.instances[n].docs ::
                  Backed(w.env, w.db.signatures, w.instances[n].docs[id]))
  {
    RunsKeep(env, size, schedule);
    var w := Run(env, size, schedule);
    forall n | 0 <= n < size && id in w.instances[n].docs
      ensures Backed(w.env, w.db.signatures, w.instances[n].docs[id])
    {
      assert InstanceOk(w, w.instances[n]);
      assert Genuine(w, w.instances[n].docs[id], id);
    }
    if id in w.db.documents { assert Genuine(w, w.db.documents[id], id); }
  }
}
