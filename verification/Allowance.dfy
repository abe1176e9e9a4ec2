/** The metered document allowance under concurrent transactions. A document save locks the subscription row when
    it reads it and keeps the lock until it commits or rolls back; a subscription update waits for that lock. */
module Allowance {
  import opened Domain
  import opened AuditChain
  import opened Billing
  import opened Tables

  /** A save in flight: its document, and the clock reading its entitlement was checked at. */
  datatype Hold = Hold(d: Document, at: nat)

  /** The documents saved between two resets of a subscription, and the plan they were saved under. */
  datatype Epoch = Epoch(plan: string, saved: nat)

  /** `epochs` is history: the epochs of each subscription, the current one last. */
  datatype World = World(db: Tables, holds: map<nat, Hold>, epochs: map<string, seq<Epoch>>)

  datatype Step =
    | Reserve(tx: nat, d: Document, now: nat)
    | Commit(tx: nat, e: AuditEvent, rowID: string)
    | Rollback(tx: nat)
    | Upsert(u: Update)

  predicate Locked(w: World, phone: string) { exists tx | tx in w.holds :: w.holds[tx].d.customerID == phone }

  function Charge(db: Tables, phone: string): Tables
    requires phone in db.subscriptions
  {
    db.(subscriptions := db.subscriptions[phone := db.subscriptions[phone].(used := db.subscriptions[phone].used + 1)])
  }

  /** The statements of a save after its check: count the document, insert it, log it, announce it. */
  function FinishSave(db: Tables, d: Document, e: AuditEvent, rowID: string): Option<Tables> {
    if d.customerID !in db.subscriptions || d.id in db.documents then None
    else
      var paid := Charge(db, d.customerID);
      match InsertAudit(paid.(documents := paid.documents[d.id := AsStored(d)]), e)
      case None => None
      case Some(logged) => Some(InsertOutbox(logged, rowID, d, DOCUMENT_CREATED))
  }

  function Resets(db: Tables,
                  u: Update): bool { u.phone !in db.subscriptions || !SameTerms(db.subscriptions[u.phone], u) }

  function EpochsOf(w: World, phone: string): seq<Epoch> { if phone in w.epochs then w.epochs[phone] else [] }

  function CountSaved(epochs: seq<Epoch>): seq<Epoch>
    requires epochs != []
  {
    var last := |epochs| - 1;
    epochs[last := epochs[last].(saved := epochs[last].saved + 1)]
  }

  /** A step that would block or fail changes nothing. */
  function Next(w: World, s: Step): World {
    match s
    case Reserve(tx, d, now) =>
      var subs := w.db.subscriptions;
      if && tx !in w.holds && !Locked(w, d.customerID)
         && d.customerID in subs && Entitled(subs[d.customerID], now) && !Exhausted(subs[d.customerID])
      then w.(holds := w.holds[tx := Hold(d, now)]) else w
    case Commit(tx, e, rowID) =>
      if tx !in w.holds then w
      else
        var d := w.holds[tx].d;
        var v := w.(holds := w.holds - {tx});
        if FinishSave(w.db, d, e, rowID).None? then v
        else v.(db := FinishSave(w.db, d, e, rowID).value,
                epochs := if EpochsOf(w, d.customerID) == [] then w.epochs
                          else w.epochs[d.customerID := CountSaved(w.epochs[d.customerID])])
    case Rollback(tx) => w.(holds := w.holds - {tx})
    case Upsert(u) =>
      if Locked(w, u.phone) || UpsertSubscription(w.db, u).None? then w
      else w.(db := UpsertSubscription(w.db, u).value,
              epochs := if !Resets(w.db, u) then w.epochs
                        else w.epochs[u.phone := EpochsOf(w, u.phone) + [Epoch(u.plan, 0)]])
  }

  function Run(steps: seq<Step>): World {
    if steps == [] then World(EMPTY, map[], map[]) else Next(Run(steps[..|steps| - 1]), steps[|steps| - 1])
  }

  function Owned(db: Tables, phone: string): set<string> {
    set id | id in db.documents && db.documents[id].customerID == phone
  }

  function Total(epochs: seq<Epoch>): nat {
    if epochs == [] then 0 else Total(epochs[..|epochs| - 1]) + epochs[|epochs| - 1].saved
  }

  function LimitTotal(epochs: seq<Epoch>): nat {
    if epochs == [] then 0 else LimitTotal(epochs[..|epochs| - 1]) + DocumentLimit(epochs[|epochs| - 1].plan)
  }

  predicate Limited(plan: string) { DocumentLimit(plan) > 0 }

  predicate AccountOk(w: World, phone: string) {
    var epochs := EpochsOf(w, phone);
    && (phone in w.db.subscriptions <==> epochs != [])
    && (phone in w.db.subscriptions ==>
          epochs[|epochs| - 1] == Epoch(w.db.subscriptions[phone].plan, w.db.subscriptions[phone].used))
    && (forall i | 0 <= i < |epochs| :: Limited(epochs[i].plan) ==> epochs[i].saved <= DocumentLimit(epochs[i].plan))
    && |Owned(w.db, phone)| == Total(epochs)
  }

  predicate HoldOk(w: World, tx: nat)
    requires tx in w.holds
  {
    var phone := w.holds[tx].d.customerID;
    && phone in w.db.subscriptions && Entitled(w.db.subscriptions[phone], w.holds[tx].at)
    && !Exhausted(w.db.subscriptions[phone])
  }

  ghost predicate Inv(w: World) {
    && (forall phone :: AccountOk(w, phone))
    && (forall tx | tx in w.holds :: HoldOk(w, tx))
    && (forall x, y | x in w.holds && y in w.holds && x != y :: w.holds[x].d.customerID != w.holds[y].d.customerID)
  }

  lemma CountTotal(epochs: seq<Epoch>)
    requires epochs != []
    ensures Total(CountSaved(epochs)) == Total(epochs) + 1
  {
  }

  lemma OwnedInsert(db: Tables, db': Tables, d: Document, phone: string)
    requires d.id !in db.documents && db'.documents == db.documents[d.id := AsStored(d)]
    ensures |Owned(db', phone)| == |Owned(db, phone)| + if d.customerID == phone then 1 else 0
  {
    assert Owned(db', phone) == Owned(db, phone) + if d.customerID == phone then {d.id} else {};
  }

  lemma CommitKeepsAccount(w: World, tx: nat, e: AuditEvent, rowID: string, phone: string)
    requires Inv(w) && tx in w.holds && FinishSave(w.db, w.holds[tx].d, e, rowID).Some?
    ensures AccountOk(Next(w, Commit(tx, e, rowID)), phone)
  {
    var v, d := Next(w, Commit(tx, e, rowID)), w.holds[tx].d;
    assert AccountOk(w, phone) && HoldOk(w, tx);
    OwnedInsert(w.db, v.db, d, phone);
    if d.customerID == phone { CountTotal(w.epochs[phone]); }
  }

  lemma CommitKeeps(w: World, tx: nat, e: AuditEvent, rowID: string)
    requires Inv(w) && tx in w.holds
    ensures Inv(Next(w, Commit(tx, e, rowID)))
  {
    var v := Next(w, Commit(tx, e, rowID));
    if FinishSave(w.db, w.holds[tx].d, e, rowID).Some? {
      forall phone ensures AccountOk(v, phone) { CommitKeepsAccount(w, tx, e, rowID, phone); }
      forall x | x in v.holds ensures HoldOk(v, x) { assert HoldOk(w, x); }
    } else {
      forall phone ensures AccountOk(v, phone) { assert AccountOk(w, phone); }
      forall x | x in v.holds ensures HoldOk(v, x) { assert HoldOk(w, x); }
    }
  }

  lemma OpensEpoch(epochs: seq<Epoch>, plan: string)
    requires forall i | 0 <= i < |epochs| ::
               Limited(epochs[i].plan) ==> epochs[i].saved <= DocumentLimit(epochs[i].plan)
    ensures var more := epochs + [Epoch(plan, 0)];
            && Total(more) == Total(epochs)
            && forall i | 0 <= i < |more| :: Limited(more[i].plan) ==> more[i].saved <= DocumentLimit(more[i].plan)
  {
    assert (epochs + [Epoch(plan, 0)])[..|epochs|] == epochs;
  }

  lemma UpsertKeepsAccount(w: World, u: Update, phone: string)
    requires Inv(w)
    ensures AccountOk(Next(w, Upsert(u)), phone)
  {
    assert AccountOk(w, phone);
    assert Owned(Next(w, Upsert(u)).db, phone) == Owned(w.db, phone);
    OpensEpoch(EpochsOf(w, phone), u.plan);
  }

  lemma UpsertKeeps(w: World, u: Update)
    requires Inv(w)
    ensures Inv(Next(w, Upsert(u)))
  {
    var v := Next(w, Upsert(u));
    forall phone ensures AccountOk(v, phone) { UpsertKeepsAccount(w, u, phone); }
    forall tx | tx in v.holds ensures HoldOk(v, tx) {
      assert HoldOk(w, tx);
      assert v == w || w.holds[tx].d.customerID != u.phone;
    }
  }

  lemma NextKeeps(w: World, s: Step)
    requires Inv(w)
    ensures Inv(Next(w, s))
  {
    var v := Next(w, s);
    if s.Commit? && s.tx in w.holds {
      CommitKeeps(w, s.tx, s.e, s.rowID);
    } else if s.Upsert? {
      UpsertKeeps(w, s.u);
    } else {
      forall phone ensures AccountOk(v, phone) { assert AccountOk(w, phone); }
      forall tx | tx in v.holds
        ensures HoldOk(v, tx)
      {
        if tx in w.holds && w.holds[tx] == v.holds[tx] { assert HoldOk(w, tx); }
      }
    }
  }

  lemma {:induction false} RunsKeep(steps: seq<Step>)
    ensures Inv(Run(steps))
  {
    if steps == [] {
      forall phone ensures AccountOk(Run(steps), phone) { assert Owned(EMPTY, phone) == {}; }
    } else {
      RunsKeep(steps[..|steps| - 1]);
      NextKeeps(Run(steps[..|steps| - 1]), steps[|steps| - 1]);
    }
  }

  lemma {:induction false} TotalBound(epochs: seq<Epoch>)
    requires forall i | 0 <= i < |epochs| :: Limited(epochs[i].plan) && epochs[i].saved <= DocumentLimit(epochs[i].plan)
    ensures Total(epochs) <= LimitTotal(epochs)
  {
    if epochs != [] { TotalBound(epochs[..|epochs| - 1]); }
  }

  /** Under every interleaving: the counter is the number of documents committed since the last reset, it never
      exceeds the limit of a limited plan, all documents of a customer are accounted for by the epochs, and on
      limited plans they are at most the sum of the limits. */
  lemma {:induction false} AllowanceHeld(steps: seq<Step>, phone: string)
    requires phone in Run(steps).db.subscriptions
    ensures var w := Run(steps);
            var s, epochs := w.db.subscriptions[phone], EpochsOf(w, phone);
            && epochs != [] && epochs[|epochs| - 1] == Epoch(s.plan, s.used)
            && (Limited(s.plan) ==> s.used <= DocumentLimit(s.plan))
            && |Owned(w.db, phone)| == Total(epochs)
            && ((forall i | 0 <= i < |epochs| :: Limited(epochs[i].plan)) ==>
                |Owned(w.db, phone)| <= LimitTotal(epochs))
  {
    RunsKeep(steps);
    var w := Run(steps);
    assert AccountOk(w, phone);
    var epochs := EpochsOf(w, phone);
    if forall i | 0 <= i < |epochs| :: Limited(epochs[i].plan) { TotalBound(epochs); }
  }

  /** Without a subscription a customer has no document. */
  lemma {:induction false} NoSubscriptionNoDocuments(steps: seq<Step>, phone: string)
    requires phone !in Run(steps).db.subscriptions
    ensures Owned(Run(steps).db, phone) == {}
  {
    RunsKeep(steps);
    assert AccountOk(Run(steps), phone);
  }

  /** The row lock makes a save serial: what commits is what the whole transaction would do at once, at the clock
      reading its check was made. */
  lemma {:induction false} SaveIsSerial(steps: seq<Step>, tx: nat, e: AuditEvent, rowID: string)
    requires tx in Run(steps).holds
    ensures var w := Run(steps);
            var h := w.holds[tx];
            var atomic := SaveDocument(w.db, h.d, e, rowID, h.at);
            Next(w, Commit(tx, e, rowID)).db == if atomic.Some? then atomic.value else w.db
  {
    RunsKeep(steps);
    assert HoldOk(Run(steps), tx);
  }

  /** A replayed identical update changes nothing, and no update within the same plan and period resets the counter. */
  lemma ReplayedUpdate(db: Tables, u: Update)
    requires UpsertSubscription(db, u).Some?
    ensures UpsertSubscription(UpsertSubscription(db, u).value, u) == UpsertSubscription(db, u)
    ensures u.phone in db.subscriptions && SameTerms(db.subscriptions[u.phone], u) ==>
              UpsertSubscription(db, u).value.subscriptions[u.phone].used == db.subscriptions[u.phone].used
  {
    var once := UpsertSubscription(db, u).value;
    assert once.subscriptions[u.phone := once.subscriptions[u.phone]] == once.subscriptions;
  }
}
