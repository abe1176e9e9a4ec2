/** The database and the publisher together: what the consumer of the event log learns about a document. A transaction
    takes its place in the created_at order when it begins and its row appears when it commits, so the row may land
    anywhere among those committed before. */
module Delivery {
  import opened Domain
  import opened Tables
  import R = Records
  import O = Outbox
  import opened LastStatus
  import opened LastWord
  import opened Sample

  /** The outbox of `db` stands in created_at order. */
  datatype World = World(db: Tables, log: seq<O.Message>, at: O.Position, done: nat)

  /** A transaction, with the place of its outbox row if it writes one. */
  datatype Step = Transaction(tx: R.Tx, place: nat) | Publisher(s: O.Step)

  function View(w: World): O.Protocol { O.Protocol(w.db.outbox, w.log, w.at, w.done) }

  /** The outbox row a transaction writes, if it commits and writes one. */
  function RowOf(db: Tables, tx: R.Tx): Option<OutboxRow> {
    var rows := R.Commit(db, tx).outbox;
    if |rows| > |db.outbox| then Some(rows[|rows| - 1]) else None
  }

  function Next(limit: nat, w: World, s: Step): World {
    match s
    case Transaction(tx, place) =>
      var db, row := R.Commit(w.db, tx), RowOf(w.db, tx);
      if row.None? || place > |w.db.outbox| then w.(db := db)
      else w.(db := db.(outbox := O.Placed(w.db.outbox, place, row.value)))
    case Publisher(step) =>
      var p := O.Next(limit, View(w), step);
      World(w.db.(outbox := p.rows), p.log, p.at, p.done)
  }

  /** Transactions come from the service and draw fresh row ids; only the publisher marks rows. */
  predicate Allowed(w: World, s: Step) {
    match s
    case Transaction(tx, place) =>
      && R.FromService(tx) && !tx.PublishTx? && place <= |w.db.outbox|
      && (tx.SaveDocumentTx? || tx.SaveStatusTx? ==> tx.rowID !in O.IdsOf(w.db.outbox))
    case Publisher(step) => !step.Insert?
  }

  /** When a transaction commits, the rows about its document that were created after its own have been delivered;
      there are none, say, when transactions about one document commit in the order in which they began. */
  predicate InTime(w: World, s: Step)
    requires Allowed(w, s)
  {
    s.Transaction? && RowOf(w.db, s.tx).Some? ==>
      NothingWaitsBehind(View(w), s.place, RowOf(w.db, s.tx).value.aggregateID)
  }

  function Run(limit: nat, steps: seq<Step>): World {
    if steps == [] then World(EMPTY, [], O.Idle, 0)
    else Next(limit, Run(limit, steps[..|steps| - 1]), steps[|steps| - 1])
  }

  predicate Feasible(limit: nat, steps: seq<Step>) {
    steps == [] ||
    var init, s := steps[..|steps| - 1], steps[|steps| - 1];
    Feasible(limit, init) && Allowed(Run(limit, init), s)
  }

  predicate WritesAbout(w: World, s: Step, id: string) {
    s.Transaction? && RowOf(w.db, s.tx).Some? && RowOf(w.db, s.tx).value.aggregateID == id
  }

  /** The last transaction about the document committed in time, whatever became of the earlier ones and of those
      about other documents. */
  predicate LastInTime(limit: nat, steps: seq<Step>, id: string)
    requires Feasible(limit, steps)
  {
    steps == [] ||
    var init, s := steps[..|steps| - 1], steps[|steps| - 1];
    if WritesAbout(Run(limit, init), s, id) then InTime(Run(limit, init), s) else LastInTime(limit, init, id)
  }

  // ---- One transaction, seen from the outbox ----

  /** What a transaction does to the outbox and the documents: nothing to either, or one row that states the new status
      of its document. */
  lemma TransactionEffect(db: Tables, tx: R.Tx)
    requires R.FromService(tx) && !tx.PublishTx?
    ensures var t, row := R.Commit(db, tx), RowOf(db, tx);
            match row
            case None => t.outbox == db.outbox && t.documents == db.documents
            case Some(r) =>
              && t.outbox == db.outbox + [r] && !r.published && (tx.SaveDocumentTx? || tx.SaveStatusTx?)
              && r.id == tx.rowID
              && t.documents.Keys == db.documents.Keys + {r.aggregateID}
              && t.documents[r.aggregateID].status == r.status
              && forall id | id in db.documents && id != r.aggregateID :: t.documents[id] == db.documents[id]
  {
  }

  lemma TransactionSound(limit: nat, w: World, s: Step)
    requires O.Sound(View(w)) && Allowed(w, s) && s.Transaction?
    ensures O.Sound(View(Next(limit, w, s)))
    ensures RowOf(w.db, s.tx).Some? ==>
              && O.Inserts(View(w), s.place, RowOf(w.db, s.tx).value)
              && View(Next(limit, w, s)) == O.Next(limit, View(w), O.Insert(s.place, RowOf(w.db, s.tx).value))
  {
    TransactionEffect(w.db, s.tx);
    if RowOf(w.db, s.tx).Some? { O.InsertSound(limit, View(w), s.place, RowOf(w.db, s.tx).value); }
  }

  lemma {:induction false} RunsSound(limit: nat, steps: seq<Step>)
    requires Feasible(limit, steps)
    ensures O.Sound(View(Run(limit, steps))) && BatchInPlace(View(Run(limit, steps)))
  {
    if steps != [] {
      var w, s := Run(limit, steps[..|steps| - 1]), steps[|steps| - 1];
      RunsSound(limit, steps[..|steps| - 1]);
      if s.Publisher? {
        O.NextSound(limit, View(w), s.s);
        NextKeepsPlace(limit, View(w), s.s);
      } else {
        TransactionSound(limit, w, s);
        TransactionEffect(w.db, s.tx);
        if RowOf(w.db, s.tx).Some? { NextKeepsPlace(limit, View(w), O.Insert(s.place, RowOf(w.db, s.tx).value)); }
      }
    }
  }

  // ---- Rows speak of documents in the database ----

  ghost predicate Known(w: World) { forall row | row in w.db.outbox :: row.aggregateID in w.db.documents }

  lemma OldRow(limit: nat, p: O.Protocol, s: O.Step, row: OutboxRow)
    requires !s.Insert? && row in O.Next(limit, p, s).rows
    ensures exists r :: r in p.rows && r.aggregateID == row.aggregateID
  {
    if s.CommitBatch? && p.at.Sending? {
      O.MarkedRow(p.rows, O.IdsOf(p.at.batch), row);
      if row !in p.rows { var r :| r in p.rows && O.MessageOf(r) == O.MessageOf(row); }
    }
  }

  lemma {:induction false} RunsKnow(limit: nat, steps: seq<Step>)
    requires Feasible(limit, steps)
    ensures Known(Run(limit, steps))
  {
    if steps != [] {
      var w, s := Run(limit, steps[..|steps| - 1]), steps[|steps| - 1];
      RunsKnow(limit, steps[..|steps| - 1]);
      RunsSound(limit, steps[..|steps| - 1]);
      if s.Publisher? {
        forall row | row in Run(limit, steps).db.outbox ensures row.aggregateID in w.db.documents {
          OldRow(limit, View(w), s.s, row);
        }
      } else {
        TransactionEffect(w.db, s.tx);
        if RowOf(w.db, s.tx).Some? { O.InsertRows(w.db.outbox, s.place, RowOf(w.db, s.tx).value); }
      }
    }
  }

  // ---- The last word is the current status ----

  ghost predicate Speaks(w: World, id: string, m: O.Message)
    requires id in w.db.documents
  {
    m.aggregateID == id && m.status == w.db.documents[id].status && HasLastWord(View(w), m)
  }

  /** If the document is in the database, the message with the last word about it states its status. */
  ghost predicate Told(w: World, id: string) { id in w.db.documents ==> exists m :: Speaks(w, id, m) }

  lemma WriterTells(limit: nat, w: World, s: Step, id: string)
    requires O.Sound(View(w)) && Allowed(w, s) && WritesAbout(w, s, id) && InTime(w, s)
    ensures Told(Next(limit, w, s), id)
  {
    TransactionEffect(w.db, s.tx);
    TransactionSound(limit, w, s);
    NewLastWord(limit, View(w), s.place, RowOf(w.db, s.tx).value);
    assert Speaks(Next(limit, w, s), id, O.MessageOf(RowOf(w.db, s.tx).value));
  }

  lemma OtherStepTells(limit: nat, w: World, s: Step, id: string)
    requires O.Sound(View(w)) && Told(w, id) && Allowed(w, s) && !WritesAbout(w, s, id)
    ensures Told(Next(limit, w, s), id)
  {
    var v := Next(limit, w, s);
    if s.Transaction? { TransactionEffect(w.db, s.tx); }
    if id in w.db.documents {
      var m :| Speaks(w, id, m);
      if s.Publisher? {
        PublisherKeeps(limit, View(w), m, s.s);
      } else if RowOf(w.db, s.tx).Some? {
        TransactionSound(limit, w, s);
        OtherInsertKeeps(limit, View(w), m, s.place, RowOf(w.db, s.tx).value);
      }
      assert Speaks(v, id, m);
    }
  }

  lemma {:induction false} RunsTell(limit: nat, steps: seq<Step>, id: string)
    requires Feasible(limit, steps) && LastInTime(limit, steps, id)
    ensures Told(Run(limit, steps), id)
  {
    if steps != [] {
      var init, s := steps[..|steps| - 1], steps[|steps| - 1];
      RunsSound(limit, init);
      if WritesAbout(Run(limit, init), s, id) {
        WriterTells(limit, Run(limit, init), s, id);
      } else {
        RunsTell(limit, init, id);
        OtherStepTells(limit, Run(limit, init), s, id);
      }
    }
  }

  /** The last de-duplicated message about a document states its status in the database; there is none about a
      document that is not there. */
  predicate StatesTheTruth(w: World, id: string) {
    var last := LastAbout(O.Delivered(w.log), id);
    if id in w.db.documents then Says(last, w.db.documents[id].status) else last.None?
  }

  lemma {:induction false} NoneAbout(messages: seq<O.Message>, id: string)
    requires forall m | m in messages :: m.aggregateID != id
    ensures LastAbout(messages, id) == None
  {
    if messages != [] { NoneAbout(messages[..|messages| - 1], id); }
  }

  lemma NoneAboutUnknown(w: World, id: string)
    requires O.Sound(View(w)) && Known(w) && id !in w.db.documents
    ensures StatesTheTruth(w, id)
  {
    O.DeliveredOnce(w.log);
    forall m | m in O.Delivered(w.log) ensures m.aggregateID != id { assert O.RowFor(w.db.outbox, m); }
    NoneAbout(O.Delivered(w.log), id);
  }

  /** Once every outbox row is marked published, the consumer knows a document's status, provided that the last
      transaction about that document committed in time. */
  lemma {:induction false} DrainedStatesTheTruth(limit: nat, steps: seq<Step>, id: string)
    requires Feasible(limit, steps) && LastInTime(limit, steps, id) && O.Drained(View(Run(limit, steps)))
    ensures StatesTheTruth(Run(limit, steps), id)
  {
    var w := Run(limit, steps);
    RunsSound(limit, steps);
    RunsKnow(limit, steps);
    RunsTell(limit, steps, id);
    if id in w.db.documents {
      var m :| Speaks(w, id, m);
      DrainedIsSaid(View(w), m);
    } else {
      NoneAboutUnknown(w, id);
    }
  }

  // ---- What being in time is exact for ----

  /** After any run, the message of a committing transaction is the last the consumer hears about its document, however
      the publisher goes on, exactly when the transaction commits in time. */
  lemma {:induction false} InTimeIsExact(limit: nat, steps: seq<Step>, s: Step)
    requires limit > 0 && Feasible(limit, steps) && Allowed(Run(limit, steps), s)
    requires s.Transaction? && RowOf(Run(limit, steps).db, s.tx).Some?
    ensures var w := Run(limit, steps);
            AlwaysLast(limit, View(Next(limit, w, s)), O.MessageOf(RowOf(w.db, s.tx).value)) <==> InTime(w, s)
  {
    var w := Run(limit, steps);
    RunsSound(limit, steps);
    TransactionSound(limit, w, s);
    LastIffNothingWaitsBehind(limit, View(w), s.place, RowOf(w.db, s.tx).value);
  }

  // ---- The publisher alone, after a run ----

  function Publishing(pass: seq<O.Step>): seq<Step> { seq(|pass|, i requires 0 <= i < |pass| => Publisher(pass[i])) }

  lemma RunAppend(limit: nat, steps: seq<Step>, s: Step)
    ensures Run(limit, steps + [s]) == Next(limit, Run(limit, steps), s)
    ensures Feasible(limit, steps + [s]) <==> Feasible(limit, steps) && Allowed(Run(limit, steps), s)
  {
    assert (steps + [s])[..|steps|] == steps;
  }

  lemma PublisherStep(limit: nat, w: World, s: O.Step)
    ensures View(Next(limit, w, Publisher(s))) == O.Next(limit, View(w), s)
    ensures Next(limit, w, Publisher(s)).db.documents == w.db.documents
  {
  }

  lemma PublishingLast(steps: seq<Step>, pass: seq<O.Step>)
    requires pass != []
    ensures var n := |pass| - 1; steps + Publishing(pass) == steps + Publishing(pass[..n]) + [Publisher(pass[n])]
  {
  }

  lemma {:induction false} PublisherRun(limit: nat, steps: seq<Step>, pass: seq<O.Step>)
    requires Feasible(limit, steps) && O.OnlyPublishes(pass)
    ensures Feasible(limit, steps + Publishing(pass))
    ensures View(Run(limit, steps + Publishing(pass))) == O.From(limit, View(Run(limit, steps)), pass)
    ensures Run(limit, steps + Publishing(pass)).db.documents == Run(limit, steps).db.documents
  {
    if pass == [] {
      assert steps + Publishing(pass) == steps;
    } else {
      var init, s := pass[..|pass| - 1], pass[|pass| - 1];
      PublisherRun(limit, steps, init);
      RunAppend(limit, steps + Publishing(init), Publisher(s));
      PublisherStep(limit, Run(limit, steps + Publishing(init)), s);
      PublishingLast(steps, pass);
    }
  }

  // ---- When the drained log states the truth ----

  /** However the publisher goes on after the run, once everything is marked the log states the truth. */
  ghost predicate AlwaysTruthful(limit: nat, steps: seq<Step>, id: string) {
    forall pass | O.OnlyPublishes(pass) && O.Drained(View(Run(limit, steps + Publishing(pass)))) ::
      StatesTheTruth(Run(limit, steps + Publishing(pass)), id)
  }

  /** After any run, in time or not: however the publisher goes on, the drained log states the status of a document
      exactly when everything that can be heard last about it does. */
  lemma {:induction false} TruthIsExact(limit: nat, steps: seq<Step>, id: string)
    requires limit > 0 && Feasible(limit, steps)
    ensures var w := Run(limit, steps);
            AlwaysTruthful(limit, steps, id) <==>
              (id in w.db.documents ==> CanOnlySay(View(w), id, w.db.documents[id].status))
  {
    var w := Run(limit, steps);
    RunsSound(limit, steps);
    if id in w.db.documents {
      var c := w.db.documents[id].status;
      SaysIff(limit, View(w), id, c);
      if AlwaysTruthful(limit, steps, id) {
        forall pass | O.OnlyPublishes(pass) && O.Drained(O.From(limit, View(w), pass))
          ensures Says(LastAbout(O.Delivered(O.From(limit, View(w), pass).log), id), c)
        {
          PublisherRun(limit, steps, pass);
          assert StatesTheTruth(Run(limit, steps + Publishing(pass)), id);
        }
      }
    }
    forall pass | O.OnlyPublishes(pass) && O.Drained(View(Run(limit, steps + Publishing(pass))))
      ensures (id in w.db.documents ==> CanOnlySay(View(w), id, w.db.documents[id].status)) ==>
                StatesTheTruth(Run(limit, steps + Publishing(pass)), id)
    {
      PublisherRun(limit, steps, pass);
      RunsSound(limit, steps + Publishing(pass));
      RunsKnow(limit, steps + Publishing(pass));
      if id !in w.db.documents { NoneAboutUnknown(Run(limit, steps + Publishing(pass)), id); }
    }
  }

  // ---- A run that misleads the consumer ----

  lemma SampleSaved(limit: nat) returns (steps: seq<Step>)
    ensures Feasible(limit, steps)
    ensures var w := Run(limit, steps);
            && w.db.documents == map["d" := SAMPLE] && w.db.audit == [SampleEvent("1")]
            && w.db.outbox == [SampleRow("1", DOCUMENT_CREATED, Draft)] && w.log == [] && w.at == O.Idle
  {
    var subscribe := Transaction(R.SubscriptionTx(Update("c", "start", "active", 1)), 0);
    var save := Transaction(R.SaveDocumentTx(SAMPLE, SampleEvent("1"), "1", 0), 0);
    SampleSubscribed();
    SampleSaves();
    RunAppend(limit, [], subscribe);
    RunAppend(limit, [] + [subscribe], save);
    steps := [] + [subscribe] + [save];
  }

  /** One status transaction about the sample document, whose row lands at `place`. */
  lemma SampleStatus(limit: nat, steps: seq<Step>, status: Status, name: string, place: nat) returns (more: seq<Step>)
    requires Feasible(limit, steps)
    requires var w := Run(limit, steps);
             && "d" in w.db.documents && w.db.documents["d"] == SAMPLE && place <= |w.db.outbox|
             && name !in O.IdsOf(w.db.outbox)
             && (forall e | e in w.db.audit :: e.id != name && e.hash != name) && w.log == [] && w.at == O.Idle
    ensures Feasible(limit, more)
    ensures var w, v := Run(limit, steps), Run(limit, more);
            && v.db.documents == w.db.documents["d" := SAMPLE.(status := status)]
            && v.db.audit == w.db.audit + [SampleEvent(name)]
            && v.db.outbox == O.Placed(w.db.outbox, place, SampleRow(name, STATUS_CHANGED, status)) && v.log == []
            && v.at == O.Idle
  {
    var d, e := SAMPLE.(status := status), SampleEvent(name);
    var w, s := Run(limit, steps), Transaction(R.SaveStatusTx(d, e, name), place);
    RunAppend(limit, steps, s);
    SampleChanges(w.db, status, name);
    more := steps + [s];
  }

  /** The second instance uploads into its draft and commits; the first had begun to record the document as sent before
      that, and commits after it. */
  lemma SampleLate(limit: nat) returns (steps: seq<Step>)
    ensures Feasible(limit, steps)
    ensures var w := Run(limit, steps);
            && w.db.documents == map["d" := SAMPLE.(status := Sent)] && w.log == [] && w.at == O.Idle
            && |w.db.outbox| == 3 && w.db.outbox[2] == SampleRow("2", STATUS_CHANGED, Draft)
  {
    steps := SampleSaved(limit);
    steps := SampleStatus(limit, steps, Draft, "2", 1);
    steps := SampleStatus(limit, steps, Sent, "3", 1);
  }

  /** The document is sent; drained, the log says last that it is a draft. */
  lemma {:induction false} LateStatusMisleads(limit: nat) returns (steps: seq<Step>)
    requires limit > 0
    ensures Feasible(limit, steps) && O.Drained(View(Run(limit, steps))) && !StatesTheTruth(Run(limit, steps), "d")
  {
    steps := SampleLate(limit);
    RunsSound(limit, steps);
    var p := View(Run(limit, steps));
    WaitingGetsLastWord(p, 2);
    var pass := O.Drain(limit, p);
    ContinuationKeeps(limit, p, O.MessageOf(p.rows[2]), pass);
    DrainedIsSaid(O.From(limit, p, pass), O.MessageOf(p.rows[2]));
    PublisherRun(limit, steps, pass);
    steps := steps + Publishing(pass);
  }
}
