/** How the recorded status of a document can move: forward only, as long as one instance runs at a time. */
module Durability {
  import opened Domain
  import opened AuditChain
  import opened Tables
  import opened Cluster
  import opened Sample
  import SignatureFirst

  /** Instance `n` stands before a status write that lands. */
  predicate Writes(w: World, n: nat, s: Step)
    requires n < |w.instances|
  {
    var i := w.instances[n];
    s.FinishStatus? && i.at.SavingStatus? && i.at.id in i.docs && s.call != Failed
    && SaveStatus(w.db, i.docs[i.at.id], s.e, s.rowID).Some?
  }

  function WrittenRow(w: World, n: nat): map<string, Document>
    requires n < |w.instances| && w.instances[n].at.SavingStatus? && w.instances[n].at.id in w.instances[n].docs
  {
    UpdateStatus(w.db, w.instances[n].docs[w.instances[n].at.id]).documents
  }

  /** The row of the document instance `n` is creating appears; its cache stays. */
  ghost predicate Creates(w: World, v: World, n: nat)
    requires n < |w.instances| == |v.instances|
  {
    var i := w.instances[n];
    && i.at.Creating? && i.at.id in i.docs && i.docs[i.at.id].id !in w.db.documents && v.instances[n].docs == i.docs
    && v.db.documents == w.db.documents[i.docs[i.at.id].id := AsStored(i.docs[i.at.id])]
  }

  /** What a step does to the document rows: a landed status write, a landed creation, or nothing. */
  ghost predicate RowEffect(w: World, v: World, n: nat, s: Step)
    requires n < |w.instances| == |v.instances|
  {
    if Writes(w, n, s) then v.db.documents == WrittenRow(w, n)
    else
      || v.db.documents == w.db.documents
      || Creates(w, v, n)
  }

  lemma StatusRows(w: World, n: nat, s: Step)
    requires n < |w.instances| && s.FinishStatus?
    ensures RowEffect(w, Next(w, n, s), n, s)
    ensures Next(w, n, s).instances[n].docs == w.instances[n].docs
  {
  }

  lemma CreateRows(w: World, n: nat, s: Step)
    requires n < |w.instances| && s.FinishCreate?
    ensures RowEffect(w, Next(w, n, s), n, s)
  {
  }

  lemma SignRows(w: World, n: nat, id: string, g: Signature, call: Call, status: Status, next: Position)
    requires n < |w.instances| && id in w.instances[n].docs
    ensures Sign(w, n, id, g, call, status, next).db.documents == w.db.documents
  {
  }

  lemma SignatureRows(w: World, n: nat, s: Step)
    requires n < |w.instances| && (s.FinishPep? || s.FinishUkep?)
    ensures Next(w, n, s).db.documents == w.db.documents
  {
    var i := w.instances[n];
    if s.FinishPep? && i.at.SigningPep? && i.at.id in i.docs {
      SignRows(w, n, i.at.id, PepBy(w.env, i.docs[i.at.id], s.ip, s.agent, s.signedAt), s.call,
               PepSigned, UsingLink(i.at.id, i.at.token));
    } else if s.FinishUkep? && i.at.SigningUkep? && i.at.id in i.docs {
      SignRows(w, n, i.at.id, UkepBy(w.env, i.docs[i.at.id], s.reference, s.signedAt), s.call,
               Completed, SavingStatus(i.at.id, None));
    }
  }

  lemma OtherRows(w: World, n: nat, s: Step)
    requires n < |w.instances| && !s.FinishStatus? && !s.FinishCreate? && !s.FinishPep? && !s.FinishUkep?
    ensures Next(w, n, s).db.documents == w.db.documents
  {
  }

  lemma Rows(w: World, n: nat, s: Step, v: World)
    requires n < |w.instances| && v == Next(w, n, s)
    ensures RowEffect(w, v, n, s)
  {
    if s.FinishStatus? {
      StatusRows(w, n, s);
    } else if s.FinishCreate? {
      CreateRows(w, n, s);
    } else if s.FinishPep? || s.FinishUkep? {
      SignatureRows(w, n, s);
    } else {
      OtherRows(w, n, s);
    }
  }

  lemma BackwardByEffect(w: World, v: World, n: nat, s: Step, id: string)
    requires SignatureFirst.Inv(w) && n < |w.instances| == |v.instances| && id in w.db.documents
    requires RowEffect(w, v, n, s)
    ensures id in v.db.documents
    ensures Rank(v.db.documents[id].status) < Rank(w.db.documents[id].status) <==>
            Writes(w, n, s) && w.instances[n].at.id == id
            && Rank(w.instances[n].docs[id].status) < Rank(w.db.documents[id].status)
  {
    if Writes(w, n, s) {
      assert SignatureFirst.InstanceOk(w, w.instances[n]);
      assert SignatureFirst.Genuine(w, w.instances[n].docs[w.instances[n].at.id], w.instances[n].at.id);
    }
  }

  /** After any run of any number of instances, a recorded status moves backward exactly when an instance lands
      a status write from a cached copy that lags behind the row. */
  lemma {:induction false} BackwardIffStale(env: Env, size: nat, schedule: Schedule, n: nat, s: Step, id: string)
    requires n < size && id in Run(env, size, schedule).db.documents
    ensures var w := Run(env, size, schedule);
            && id in Next(w, n, s).db.documents
            && (Rank(Next(w, n, s).db.documents[id].status) < Rank(w.db.documents[id].status) <==>
                Writes(w, n, s) && w.instances[n].at.id == id
                && Rank(w.instances[n].docs[id].status) < Rank(w.db.documents[id].status))
  {
    var w := Run(env, size, schedule);
    SignatureFirst.RunsKeep(env, size, schedule);
    Rows(w, n, s, Next(w, n, s));
    BackwardByEffect(w, Next(w, n, s), n, s, id);
  }

  // ---- What is written is what is loaded ----

  ghost predicate RowsStored(w: World) {
    forall id | id in w.db.documents :: AsStored(w.db.documents[id]) == w.db.documents[id]
  }

  lemma StoredTwice(d: Document)
    ensures AsStored(AsStored(d)) == AsStored(d)
  {
  }

  lemma StoredStays(w: World, v: World, n: nat, s: Step)
    requires RowsStored(w) && n < |w.instances| == |v.instances| && RowEffect(w, v, n, s)
    ensures RowsStored(v)
  {
    if Creates(w, v, n) { StoredTwice(w.instances[n].docs[w.instances[n].at.id]); }
  }

  lemma {:induction false} RowsAreStored(env: Env, size: nat, schedule: Schedule)
    ensures RowsStored(Run(env, size, schedule))
  {
    if schedule != [] {
      var init, turn := schedule[..|schedule| - 1], schedule[|schedule| - 1];
      var w := Run(env, size, init);
      RowsAreStored(env, size, init);
      if turn.0 < size {
        Rows(w, turn.0, turn.1, Next(w, turn.0, turn.1));
        StoredStays(w, Next(w, turn.0, turn.1), turn.0, turn.1);
      }
    }
  }

  lemma WrittenColumns(d: Document, row: Document)
    requires Origin(d) == Origin(row) && AsStored(row) == row
    ensures row.(status := d.status, objectKey := d.objectKey, contentHash := d.contentHash) == AsStored(d)
  {
  }

  /** A landed status write makes the row equal to the cached copy, as the database keeps it. */
  lemma WriteRecordsCopy(w: World, n: nat, s: Step)
    requires SignatureFirst.Inv(w) && RowsStored(w) && n < |w.instances| && Writes(w, n, s)
    requires s.e.documentID == w.instances[n].at.id
    ensures var id := w.instances[n].at.id;
            id in Next(w, n, s).db.documents && Next(w, n, s).db.documents[id] == AsStored(w.instances[n].docs[id])
  {
    var id := w.instances[n].at.id;
    var d := w.instances[n].docs[id];
    assert SignatureFirst.InstanceOk(w, w.instances[n]) && SignatureFirst.Genuine(w, d, id);
    assert id in w.db.documents && SignatureFirst.Genuine(w, w.db.documents[id], id);
    WrittenColumns(d, w.db.documents[id]);
    StatusRows(w, n, s);
  }

  /** Instance `n` lands a status write of document `id`. */
  predicate WritesTo(w: World, n: nat, s: Step, id: string)
    requires n < |w.instances|
  {
    Writes(w, n, s) && w.instances[n].at.id == id
  }

  /** No status write of the document lands while `more` follows `before`. */
  predicate Undisturbed(env: Env, size: nat, before: Schedule, more: Schedule, id: string) {
    more == [] ||
    var init, turn := more[..|more| - 1], more[|more| - 1];
    && Undisturbed(env, size, before, init, id)
    && (turn.0 < size ==> !WritesTo(Run(env, size, before + init), turn.0, turn.1, id))
  }

  lemma RowStays(w: World, v: World, n: nat, s: Step, id: string)
    requires SignatureFirst.Inv(w) && n < |w.instances| == |v.instances| && RowEffect(w, v, n, s)
    requires id in w.db.documents && !WritesTo(w, n, s, id)
    ensures id in v.db.documents && v.db.documents[id] == w.db.documents[id]
  {
    if Writes(w, n, s) {
      assert SignatureFirst.InstanceOk(w, w.instances[n]);
      assert SignatureFirst.Genuine(w, w.instances[n].docs[w.instances[n].at.id], w.instances[n].at.id);
    }
  }

  lemma {:induction false} RowStaysUndisturbed(env: Env, size: nat, before: Schedule, more: Schedule, id: string)
    requires id in Run(env, size, before).db.documents && Undisturbed(env, size, before, more, id)
    ensures var w := Run(env, size, before + more);
            id in w.db.documents && w.db.documents[id] == Run(env, size, before).db.documents[id]
  {
    if more == [] {
      assert before + more == before;
    } else {
      var init, turn := more[..|more| - 1], more[|more| - 1];
      var w := Run(env, size, before + init);
      RowStaysUndisturbed(env, size, before, init, id);
      assert (before + more)[..|before + more| - 1] == before + init;
      if turn.0 < size {
        SignatureFirst.RunsKeep(env, size, before + init);
        Rows(w, turn.0, turn.1, Next(w, turn.0, turn.1));
        RowStays(w, Next(w, turn.0, turn.1), turn.0, turn.1, id);
      }
    }
  }

  /** What a status write records is what is loaded later: once the write has landed, acknowledged or not, and as long
      as no other status write of the document lands, whatever else any instance does, crashes included, an instance
      that does not hold the document loads, for a participant, the copy that was written, as the database keeps it. */
  lemma {:induction false} SurvivesRestart(env: Env, size: nat, schedule: Schedule, n: nat, s: Step, more: Schedule,
                                           m: nat, actor: string)
    requires n < size && m < size && Writes(Run(env, size, schedule), n, s)
    requires s.e.documentID == Run(env, size, schedule).instances[n].at.id
    requires Undisturbed(env, size, schedule + [(n, s)], more, s.e.documentID)
    requires var i := Run(env, size, schedule + [(n, s)] + more).instances[m]; i.at == Idle && s.e.documentID !in i.docs
    ensures var id, v := s.e.documentID, Run(env, size, schedule + [(n, s)] + more);
            var d, held := Run(env, size, schedule).instances[n].docs[id], v.instances[m].docs;
            Next(v, m, Load(id, actor)).instances[m].docs ==
              if actor != "" && (actor == d.customerID || actor == d.contractorPhone) then held[id := AsStored(d)]
              else held
  {
    var w, id := Run(env, size, schedule), s.e.documentID;
    SignatureFirst.RunsKeep(env, size, schedule);
    RowsAreStored(env, size, schedule);
    WriteRecordsCopy(w, n, s);
    RunAppend(env, size, schedule, n, s);
    RowStaysUndisturbed(env, size, schedule + [(n, s)], more, id);
    LoadsRow(Run(env, size, schedule + [(n, s)] + more), m, id, actor);
  }

  lemma LoadsRow(v: World, m: nat, id: string, actor: string)
    requires m < |v.instances| && v.instances[m].at == Idle && id !in v.instances[m].docs
    requires id in v.db.documents
    ensures var d, held := v.db.documents[id], v.instances[m].docs;
            Next(v, m, Load(id, actor)).instances[m].docs ==
              if actor != "" && (actor == d.customerID || actor == d.contractorPhone) then held[id := d] else held
  {
  }

  // ---- Copies that no one else has written past ----

  /** What a step does to the cache of its instance: statuses rise, and a new copy is a fresh load or a new draft. */
  ghost predicate CacheForward(w: World, v: World, n: nat)
    requires n < |w.instances| == |v.instances|
  {
    forall id | id in v.instances[n].docs ::
      || (id in w.instances[n].docs && Rank(w.instances[n].docs[id].status) <= Rank(v.instances[n].docs[id].status))
      || (id in w.db.documents && v.instances[n].docs[id] == w.db.documents[id])
      || id !in w.origins
  }

  lemma SignForward(w: World, n: nat, id: string, g: Signature, call: Call, status: Status, next: Position)
    requires n < |w.instances| && id in w.instances[n].docs && Rank(w.instances[n].docs[id].status) <= Rank(status)
    ensures CacheForward(w, Sign(w, n, id, g, call, status, next), n)
  {
  }

  lemma SignatureForward(w: World, n: nat, s: Step)
    requires n < |w.instances| && SignatureFirst.Inv(w) && (s.FinishPep? || s.FinishUkep?)
    ensures CacheForward(w, Next(w, n, s), n)
  {
    var i := w.instances[n];
    assert SignatureFirst.InstanceOk(w, i);
    if s.FinishPep? && i.at.SigningPep? {
      SignForward(w, n, i.at.id, PepBy(w.env, i.docs[i.at.id], s.ip, s.agent, s.signedAt), s.call,
                  PepSigned, UsingLink(i.at.id, i.at.token));
    } else if s.FinishUkep? && i.at.SigningUkep? {
      SignForward(w, n, i.at.id, UkepBy(w.env, i.docs[i.at.id], s.reference, s.signedAt), s.call,
                  Completed, SavingStatus(i.at.id, None));
    }
  }

  lemma LinkForward(w: World, n: nat, s: Step)
    requires n < |w.instances| && SignatureFirst.Inv(w) && s.FinishLink?
    ensures CacheForward(w, Next(w, n, s), n)
  {
    assert SignatureFirst.InstanceOk(w, w.instances[n]);
  }

  lemma BeginsForward(w: World, n: nat, s: Step)
    requires n < |w.instances|
    requires s.Load? || s.BeginCreate? || s.BeginUpload? || s.BeginStart? || s.BeginSend?
    ensures CacheForward(w, Next(w, n, s), n)
  {
  }

  lemma RestForward(w: World, n: nat, s: Step)
    requires n < |w.instances|
    requires s.FinishStatus? || s.FinishCreate? || s.FinishUseLink? || s.BeginConfirm? || s.BeginComplete?
          || s.Crash? || s.Cleanup? || s.Unrelated?
    ensures CacheForward(w, Next(w, n, s), n)
  {
  }

  lemma Forward(w: World, n: nat, s: Step, v: World)
    requires n < |w.instances| && SignatureFirst.Inv(w) && v == Next(w, n, s)
    ensures |v.instances| == |w.instances| && CacheForward(w, v, n)
  {
    if s.FinishPep? || s.FinishUkep? {
      SignatureForward(w, n, s);
    } else if s.FinishLink? {
      LinkForward(w, n, s);
    } else if s.Load? || s.BeginCreate? || s.BeginUpload? || s.BeginStart? || s.BeginSend? {
      BeginsForward(w, n, s);
    } else {
      RestForward(w, n, s);
    }
  }

  lemma RunAppend(env: Env, size: nat, schedule: Schedule, n: nat, s: Step)
    requires n < size
    ensures Run(env, size, schedule + [(n, s)]) == Next(Run(env, size, schedule), n, s)
  {
  }

  /** Instance `n` takes a fresh copy of the document, by loading or drawing it, or lands a write of it. */
  predicate Refreshes(w: World, n: nat, s: Step, id: string)
    requires n < |w.instances|
  {
    WritesTo(w, n, s, id) || (id !in w.instances[n].docs && id in Next(w, n, s).instances[n].docs)
  }

  /** Another instance has landed a write of the document since instance `n` last loaded, drew or wrote it. */
  predicate Overtaken(env: Env, size: nat, schedule: Schedule, n: nat, id: string)
    requires n < size
  {
    schedule != [] &&
    var init, turn := schedule[..|schedule| - 1], schedule[|schedule| - 1];
    if turn.0 == n then Overtaken(env, size, init, n, id) && !Refreshes(Run(env, size, init), n, turn.1, id)
    else Overtaken(env, size, init, n, id) || (turn.0 < size && WritesTo(Run(env, size, init), turn.0, turn.1, id))
  }

  /** The copy does not lag behind the row. */
  predicate AheadAt(w: World, n: nat, id: string)
    requires n < |w.instances|
  {
    id in w.instances[n].docs && id in w.db.documents ==>
      Rank(w.db.documents[id].status) <= Rank(w.instances[n].docs[id].status)
  }

  /** A step of instance `m`, in what concerns the rows and the caches. */
  ghost predicate StepOf(w: World, v: World, m: nat, s: Step)
    requires m < |w.instances| == |v.instances|
  {
    && RowEffect(w, v, m, s) && CacheForward(w, v, m)
    && (Writes(w, m, s) ==> v.instances[m].docs == w.instances[m].docs)
    && forall n | 0 <= n < |w.instances| && n != m :: v.instances[n] == w.instances[n]
  }

  lemma StepIsStep(w: World, v: World, m: nat, s: Step)
    requires SignatureFirst.Inv(w) && m < |w.instances| && v == Next(w, m, s)
    ensures StepOf(w, v, m, s)
  {
    Forward(w, m, s, v);
    Rows(w, m, s, v);
    if s.FinishStatus? { StatusRows(w, m, s); }
    OthersStay(w, v, m, s);
  }

  lemma OthersStay(w: World, v: World, m: nat, s: Step)
    requires m < |w.instances| && v == Next(w, m, s)
    ensures forall n | 0 <= n < |w.instances| && n != m :: v.instances[n] == w.instances[n]
  {
  }

  /** The instance's own step keeps its copy ahead, and a fresh copy is. */
  lemma OwnStepAhead(w: World, v: World, n: nat, s: Step, id: string)
    requires SignatureFirst.Inv(w) && n < |w.instances| == |v.instances| && StepOf(w, v, n, s)
    requires AheadAt(w, n, id) || WritesTo(w, n, s, id)
    ensures AheadAt(v, n, id)
  {
    var i := w.instances[n];
    assert SignatureFirst.InstanceOk(w, i);
    if id in i.docs { assert SignatureFirst.Genuine(w, i.docs[id], id); }
    if id in w.db.documents { assert SignatureFirst.Genuine(w, w.db.documents[id], id); }
    if i.at.Creating? && i.at.id in i.docs { assert SignatureFirst.Genuine(w, i.docs[i.at.id], i.at.id); }
    if i.at.SavingStatus? && i.at.id in i.docs { assert SignatureFirst.Genuine(w, i.docs[i.at.id], i.at.id); }
  }

  /** Another instance's step keeps it ahead, unless it writes the document. */
  lemma OtherStepAhead(w: World, v: World, m: nat, s: Step, n: nat, id: string)
    requires SignatureFirst.Inv(w) && m < |w.instances| == |v.instances| && StepOf(w, v, m, s)
    requires n < |w.instances| && n != m && AheadAt(w, n, id) && !WritesTo(w, m, s, id)
    ensures AheadAt(v, n, id)
  {
    var i := w.instances[m];
    assert SignatureFirst.InstanceOk(w, i);
    if i.at.Creating? && i.at.id in i.docs { assert SignatureFirst.Genuine(w, i.docs[i.at.id], i.at.id); }
    if i.at.SavingStatus? && i.at.id in i.docs { assert SignatureFirst.Genuine(w, i.docs[i.at.id], i.at.id); }
  }

  /** After any run of any number of instances: a copy that no other instance has written past is not behind. */
  lemma {:induction false} AheadUnlessOvertaken(env: Env, size: nat, schedule: Schedule, n: nat, id: string)
    requires n < size && !Overtaken(env, size, schedule, n, id)
    ensures AheadAt(Run(env, size, schedule), n, id)
  {
    if schedule != [] {
      var init, turn := schedule[..|schedule| - 1], schedule[|schedule| - 1];
      var w := Run(env, size, init);
      if turn.0 < size {
        SignatureFirst.RunsKeep(env, size, init);
        StepIsStep(w, Next(w, turn.0, turn.1), turn.0, turn.1);
      }
      if turn.0 != n {
        AheadUnlessOvertaken(env, size, init, n, id);
        if turn.0 < size { OtherStepAhead(w, Next(w, turn.0, turn.1), turn.0, turn.1, n, id); }
      } else {
        if !Overtaken(env, size, init, n, id) { AheadUnlessOvertaken(env, size, init, n, id); }
        OwnStepAhead(w, Next(w, n, turn.1), n, turn.1, id);
      }
    }
  }

  /** A recorded status falls only by a write of an instance that another one has written past. */
  lemma {:induction false} FallsOnlyIfOvertaken(env: Env, size: nat, schedule: Schedule, n: nat, s: Step, id: string)
    requires n < size && id in Run(env, size, schedule).db.documents
    requires id in Next(Run(env, size, schedule), n, s).db.documents
    requires Rank(Next(Run(env, size, schedule), n, s).db.documents[id].status)
             < Rank(Run(env, size, schedule).db.documents[id].status)
    ensures WritesTo(Run(env, size, schedule), n, s, id) && Overtaken(env, size, schedule, n, id)
  {
    BackwardIffStale(env, size, schedule, n, s, id);
    var w := Run(env, size, schedule);
    SignatureFirst.RunsKeep(env, size, schedule);
    assert SignatureFirst.InstanceOk(w, w.instances[n]);
    if !Overtaken(env, size, schedule, n, id) { AheadUnlessOvertaken(env, size, schedule, n, id); }
  }

  // ---- Documents handled by one instance at a time ----

  /** An instance writes the document only if no other has since it last loaded, drew or wrote it. */
  predicate HandledInTurn(env: Env, size: nat, schedule: Schedule, id: string) {
    schedule == [] ||
    var init, turn := schedule[..|schedule| - 1], schedule[|schedule| - 1];
    && HandledInTurn(env, size, init, id)
    && (turn.0 < size && WritesTo(Run(env, size, init), turn.0, turn.1, id) ==> !Overtaken(env, size, init, turn.0, id))
  }

  /** With any number of instances, failing calls and restarts allowed, the status of a document that is handled in
      turn never moves backward over the whole run, whatever happens to the other documents. */
  lemma {:induction false} InTurnMovesForward(env: Env, size: nat, schedule: Schedule, more: Schedule, id: string)
    requires id in Run(env, size, schedule).db.documents && HandledInTurn(env, size, schedule + more, id)
    ensures id in Run(env, size, schedule + more).db.documents
    ensures Rank(Run(env, size, schedule).db.documents[id].status)
            <= Rank(Run(env, size, schedule + more).db.documents[id].status)
  {
    if more == [] {
      assert schedule + more == schedule;
    } else {
      var init, turn := more[..|more| - 1], more[|more| - 1];
      assert (schedule + more)[..|schedule + more| - 1] == schedule + init;
      InTurnMovesForward(env, size, schedule, init, id);
      if turn.0 < size {
        var w := Run(env, size, schedule + init);
        BackwardIffStale(env, size, schedule + init, turn.0, turn.1, id);
        if Rank(Next(w, turn.0, turn.1).db.documents[id].status) < Rank(w.db.documents[id].status) {
          FallsOnlyIfOvertaken(env, size, schedule + init, turn.0, turn.1, id);
        }
      }
    }
  }

  /** Only instance `h` lands writes of the document. */
  predicate OneWriter(env: Env, size: nat, schedule: Schedule, h: nat, id: string) {
    schedule == [] ||
    var init, turn := schedule[..|schedule| - 1], schedule[|schedule| - 1];
    && OneWriter(env, size, init, h, id)
    && (turn.0 < size && WritesTo(Run(env, size, init), turn.0, turn.1, id) ==> turn.0 == h)
  }

  lemma {:induction false} OneWriterIsInTurn(env: Env, size: nat, schedule: Schedule, h: nat, id: string)
    requires h < size && OneWriter(env, size, schedule, h, id)
    ensures !Overtaken(env, size, schedule, h, id) && HandledInTurn(env, size, schedule, id)
  {
    if schedule != [] { OneWriterIsInTurn(env, size, schedule[..|schedule| - 1], h, id); }
  }

  /** No cached copy lags behind its row. */
  ghost predicate CacheAhead(w: World) { forall n, id | 0 <= n < |w.instances| :: AheadAt(w, n, id) }

  lemma {:induction false} AloneIsWriter(env: Env, schedule: Schedule, id: string)
    ensures OneWriter(env, 1, schedule, 0, id)
  {
    if schedule != [] { AloneIsWriter(env, schedule[..|schedule| - 1], id); }
  }

  /** With one instance at a time, failing calls and restarts allowed, no cached copy ever lags behind its row and
      no row's status ever moves backward over the whole run. */
  lemma {:induction false} OneInstanceMovesForward(env: Env, schedule: Schedule, more: Schedule, id: string)
    requires id in Run(env, 1, schedule).db.documents
    ensures id in Run(env, 1, schedule + more).db.documents
    ensures Rank(Run(env, 1, schedule).db.documents[id].status)
            <= Rank(Run(env, 1, schedule + more).db.documents[id].status)
    ensures CacheAhead(Run(env, 1, schedule + more))
  {
    AloneIsWriter(env, schedule + more, id);
    OneWriterIsInTurn(env, 1, schedule + more, 0, id);
    InTurnMovesForward(env, 1, schedule, more, id);
    forall n, any | 0 <= n < 1 ensures AheadAt(Run(env, 1, schedule + more), n, any) {
      AloneIsWriter(env, schedule + more, any);
      OneWriterIsInTurn(env, 1, schedule + more, 0, any);
      AheadUnlessOvertaken(env, 1, schedule + more, 0, any);
    }
  }

  // ---- Two instances are enough for a status to move backward ----

  const HOLDS_DRAFT := Instance(map["d" := SAMPLE], map[], Idle)

  lemma SampleCreating(env: Env) returns (schedule: Schedule)
    ensures var w := Run(env, 2, schedule);
            && w.db == SUBSCRIBED
            && w.instances == [HOLDS_DRAFT.(at := Creating("d")), RESTARTED] && w.issued == {}
  {
    var s := Unrelated(map[], map[], map["c" := Subscription("start", "active", 0, 1)]);
    RunAppend(env, 2, [], 0, s);
    RunAppend(env, 2, [(0, s)], 0, BeginCreate(SAMPLE));
    schedule := [(0, s)] + [(0, BeginCreate(SAMPLE))];
  }

  lemma SampleSaved(env: Env) returns (schedule: Schedule)
    ensures var w := Run(env, 2, schedule);
            && w.db.documents == map["d" := SAMPLE] && w.db.audit == [SampleEvent("1")] && w.db.links == map[]
            && w.instances == [HOLDS_DRAFT, RESTARTED] && w.issued == {}
  {
    schedule := SampleCreating(env);
    SampleSaves();
    RunAppend(env, 2, schedule, 0, FinishCreate(SampleEvent("1"), "1", 0, Committed));
    schedule := schedule + [(0, FinishCreate(SampleEvent("1"), "1", 0, Committed))];
  }

  lemma SampleHeld(env: Env) returns (schedule: Schedule)
    ensures var w := Run(env, 2, schedule);
            && w.db.documents == map["d" := SAMPLE] && w.db.audit == [SampleEvent("1")] && w.db.links == map[]
            && w.instances == [HOLDS_DRAFT, HOLDS_DRAFT] && w.issued == {}
  {
    schedule := SampleSaved(env);
    RunAppend(env, 2, schedule, 1, Load("d", "c"));
    schedule := schedule + [(1, Load("d", "c"))];
  }

  lemma SampleLinking(env: Env) returns (schedule: Schedule)
    ensures var w := Run(env, 2, schedule);
            && w.db.documents == map["d" := SAMPLE] && w.db.audit == [SampleEvent("1")] && w.db.links == map[]
            && |w.instances| == 2 && w.instances[1] == HOLDS_DRAFT
            && w.instances[0].at == Linking("d", "t") && w.instances[0].docs == map["d" := SAMPLE]
  {
    schedule := SampleHeld(env);
    RunAppend(env, 2, schedule, 0, BeginSend("d", "c", "t"));
    schedule := schedule + [(0, BeginSend("d", "c", "t"))];
  }

  lemma SampleLinked(env: Env) returns (schedule: Schedule)
    ensures var w := Run(env, 2, schedule);
            && w.db.documents == map["d" := SAMPLE] && w.db.audit == [SampleEvent("1")]
            && |w.instances| == 2 && w.instances[1] == HOLDS_DRAFT
            && w.instances[0].at == SavingStatus("d", None)
            && w.instances[0].docs == map["d" := SAMPLE.(status := Sent)]
  {
    schedule := SampleLinking(env);
    RunAppend(env, 2, schedule, 0, FinishLink(1, Committed));
    schedule := schedule + [(0, FinishLink(1, Committed))];
  }

  lemma SampleSent(env: Env) returns (schedule: Schedule)
    ensures var w := Run(env, 2, schedule);
            && w.db.documents == map["d" := SAMPLE.(status := Sent)]
            && w.db.audit == [SampleEvent("1"), SampleEvent("2")]
            && |w.instances| == 2 && w.instances[1] == HOLDS_DRAFT
  {
    schedule := SampleLinked(env);
    SampleChanges(Run(env, 2, schedule).db, Sent, "2");
    RunAppend(env, 2, schedule, 0, FinishStatus(SampleEvent("2"), "2", Committed));
    schedule := schedule + [(0, FinishStatus(SampleEvent("2"), "2", Committed))];
  }

  lemma SampleStale(env: Env) returns (schedule: Schedule)
    ensures var w := Run(env, 2, schedule);
            && w.db.documents == map["d" := SAMPLE.(status := Sent)]
            && w.db.audit == [SampleEvent("1"), SampleEvent("2")]
            && |w.instances| == 2 && w.instances[1].at == SavingStatus("d", None)
            && w.instances[1].docs == map["d" := SAMPLE.(objectKey := "k", contentHash := "h")]
  {
    schedule := SampleSent(env);
    RunAppend(env, 2, schedule, 1, BeginUpload("d", "c", "k", "h"));
    schedule := schedule + [(1, BeginUpload("d", "c", "k", "h"))];
  }

  /** The second instance caches the draft, the first sends it, and the second uploads into its stale draft. */
  lemma {:induction false} TwoInstancesCanRegress(env: Env) returns (schedule: Schedule, s: Step)
    ensures var w := Run(env, 2, schedule);
            && "d" in w.db.documents && w.db.documents["d"].status == Sent
            && "d" in Next(w, 1, s).db.documents && Next(w, 1, s).db.documents["d"].status == Draft
  {
    schedule := SampleStale(env);
    s := FinishStatus(SampleEvent("3"), "", Committed);
  }
}
