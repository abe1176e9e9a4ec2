/** A signing link confirms at most once, over any number of instances. */
module LinkUse {
  import opened Domain
  import opened AuditChain
  import opened Tables
  import opened Cluster

  /** The token an instance is about to insert a link for. */
  function Inserting(i: Instance): Option<string> { if i.at.Linking? then Some(i.at.token) else None }

  /** The token whose use an instance has won and not yet reported. */
  function Winning(i: Instance): Option<string> { if i.at.SavingStatus? then i.at.claim else None }

  /** A token is inserted once and its row, once claimed, stays used. */
  ghost predicate RowsOk(w: World) {
    && (forall t | t in w.db.links :: t in w.issued && (t in w.claimed ==> w.db.links[t].usedAt.Some?))
    && (forall t | t in w.claimed :: t in w.issued)
  }

  predicate HolderOk(w: World, i: Instance) {
    && (Inserting(i).Some? ==> var t := Inserting(i).value; t in w.issued && t !in w.db.links && t !in w.claimed)
    && (Winning(i).Some? ==> var t := Winning(i).value; t in w.claimed && t !in w.confirmed)
  }

  ghost predicate HoldersOk(w: World) {
    && (forall n | 0 <= n < |w.instances| :: HolderOk(w, w.instances[n]))
    && (forall m, n | 0 <= m < n < |w.instances| :: Apart(w.instances[m], w.instances[n]))
  }

  predicate Apart(i: Instance, j: Instance) {
    && (Inserting(i).Some? ==> Inserting(i) != Inserting(j))
    && (Winning(i).Some? ==> Winning(i) != Winning(j))
  }

  predicate NoRepeats(s: seq<string>) { forall i, j | 0 <= i < j < |s| :: s[i] != s[j] }

  ghost predicate Inv(w: World) {
    && RowsOk(w) && HoldersOk(w)
    && NoRepeats(w.confirmed) && (forall t | t in w.confirmed :: t in w.claimed)
  }

  // ---- The five things a step can do about links ----

  ghost predicate OnlyMoves(w: World, v: World, n: nat, inserting: Option<string>, winning: Option<string>)
    requires n < |w.instances|
  {
    && |v.instances| == |w.instances|
    && (forall m | 0 <= m < |w.instances| && m != n :: v.instances[m] == w.instances[m])
    && Inserting(v.instances[n]) == inserting && Winning(v.instances[n]) == winning
  }

  ghost predicate SameHistory(w: World, v: World) {
    v.issued == w.issued && v.claimed == w.claimed && v.confirmed == w.confirmed
  }

  /** No new row, no new event; instance `n` keeps or drops what it holds. */
  ghost predicate Quiet(w: World, v: World, n: nat)
    requires n < |w.instances|
  {
    && SameHistory(w, v) && (forall t | t in v.db.links :: t in w.db.links && v.db.links[t] == w.db.links[t])
    && (OnlyMoves(w, v, n, None, None) || OnlyMoves(w, v, n, Inserting(w.instances[n]), Winning(w.instances[n])))
  }

  ghost predicate Draws(w: World, v: World, n: nat, t: string)
    requires n < |w.instances|
  {
    && t !in w.issued && v.db.links == w.db.links && SameHistory(w.(issued := w.issued + {t}), v)
    && OnlyMoves(w, v, n, Some(t), None)
  }

  ghost predicate Inserts(w: World, v: World, n: nat, row: LinkRow)
    requires n < |w.instances|
  {
    && Inserting(w.instances[n]).Some? && v.db.links == w.db.links[Inserting(w.instances[n]).value := row]
    && SameHistory(w, v) && OnlyMoves(w, v, n, None, None)
  }

  /** The use of an unused link, reported to the caller or not. */
  ghost predicate Uses(w: World, v: World, n: nat, t: string, now: nat, reported: bool)
    requires n < |w.instances|
  {
    && t in w.db.links && w.db.links[t].usedAt.None?
    && v.db.links == w.db.links[t := w.db.links[t].(usedAt := Some(now))]
    && SameHistory(if reported then w.(claimed := w.claimed + {t}) else w, v)
    && OnlyMoves(w, v, n, None, if reported then Some(t) else None)
  }

  ghost predicate Confirms(w: World, v: World, n: nat)
    requires n < |w.instances|
  {
    && Winning(w.instances[n]).Some? && v.db.links == w.db.links
    && SameHistory(w.(confirmed := w.confirmed + [Winning(w.instances[n]).value]), v)
    && OnlyMoves(w, v, n, None, None)
  }

  ghost predicate Effect(w: World, v: World, n: nat)
    requires n < |w.instances|
  {
    || Quiet(w, v, n)
    || (exists t :: Draws(w, v, n, t))
    || (exists row :: Inserts(w, v, n, row))
    || (exists t, now, reported :: Uses(w, v, n, t, now, reported))
    || Confirms(w, v, n)
  }

  lemma SendEffect(w: World, n: nat, s: Step)
    requires n < |w.instances| && s.BeginSend?
    ensures Draws(w, Next(w, n, s), n, s.token) || Quiet(w, Next(w, n, s), n)
  {
  }

  lemma LinkEffect(w: World, n: nat, s: Step)
    requires n < |w.instances| && s.FinishLink?
    ensures var v := Next(w, n, s); Quiet(w, v, n) || Inserts(w, v, n, LinkRow(w.instances[n].at.id, s.expiresAt, None))
  {
    var i, v := w.instances[n], Next(w, n, s);
    if i.at.Linking? && v.db != w.db { assert Inserts(w, v, n, LinkRow(i.at.id, s.expiresAt, None)); }
  }

  lemma UseEffect(w: World, n: nat, s: Step)
    requires n < |w.instances| && s.FinishUseLink?
    ensures var v := Next(w, n, s); Quiet(w, v, n) || Uses(w, v, n, w.instances[n].at.token, s.now, s.call == Committed)
  {
  }

  lemma StatusEffect(w: World, n: nat, s: Step)
    requires n < |w.instances| && s.FinishStatus?
    ensures Confirms(w, Next(w, n, s), n) || Quiet(w, Next(w, n, s), n)
  {
  }

  lemma SignQuiet(w: World, n: nat, id: string, g: Signature, call: Call, status: Status, next: Position)
    requires n < |w.instances| && id in w.instances[n].docs
    requires (next.UsingLink? || (next.SavingStatus? && next.claim.None?))
    ensures Quiet(w, Sign(w, n, id, g, call, status, next), n)
  {
  }

  lemma SignatureQuiet(w: World, n: nat, s: Step)
    requires n < |w.instances| && (s.FinishPep? || s.FinishUkep?)
    ensures Quiet(w, Next(w, n, s), n)
  {
    var i := w.instances[n];
    if s.FinishPep? && i.at.SigningPep? && i.at.id in i.docs {
      SignQuiet(w, n, i.at.id, PepBy(w.env, i.docs[i.at.id], s.ip, s.agent, s.signedAt), s.call,
                PepSigned, UsingLink(i.at.id, i.at.token));
    } else if s.FinishUkep? && i.at.SigningUkep? && i.at.id in i.docs {
      SignQuiet(w, n, i.at.id, UkepBy(w.env, i.docs[i.at.id], s.reference, s.signedAt), s.call,
                Completed, SavingStatus(i.at.id, None));
    }
  }

  lemma CreateQuiet(w: World, n: nat, s: Step)
    requires n < |w.instances| && s.FinishCreate?
    ensures Quiet(w, Next(w, n, s), n)
  {
  }

  lemma BeginConfirmQuiet(w: World, n: nat, s: Step)
    requires n < |w.instances| && s.BeginConfirm?
    ensures Quiet(w, Next(w, n, s), n)
  {
  }

  lemma BeginQuiet(w: World, n: nat, s: Step)
    requires n < |w.instances| && (s.BeginCreate? || s.BeginUpload? || s.BeginStart? || s.BeginComplete?)
    ensures Quiet(w, Next(w, n, s), n)
  {
  }

  lemma OutsideQuiet(w: World, n: nat, s: Step)
    requires n < |w.instances| && (s.Load? || s.Crash? || s.Cleanup? || s.Unrelated?)
    ensures Quiet(w, Next(w, n, s), n)
  {
  }

  lemma StepEffect(w: World, n: nat, s: Step, v: World)
    requires n < |w.instances| && v == Next(w, n, s)
    ensures Effect(w, v, n)
  {
    if s.BeginSend? {
      SendEffect(w, n, s);
    } else if s.FinishLink? {
      LinkEffect(w, n, s);
    } else if s.FinishUseLink? {
      UseEffect(w, n, s);
    } else if s.FinishStatus? {
      StatusEffect(w, n, s);
    } else if s.FinishPep? || s.FinishUkep? {
      SignatureQuiet(w, n, s);
    } else if s.FinishCreate? {
      CreateQuiet(w, n, s);
    } else if s.Load? || s.Crash? || s.Cleanup? || s.Unrelated? {
      OutsideQuiet(w, n, s);
    } else if s.BeginConfirm? {
      BeginConfirmQuiet(w, n, s);
    } else {
      BeginQuiet(w, n, s);
    }
  }

  // ---- Each of them keeps the invariant ----

  lemma RowsKeep(w: World, v: World, n: nat)
    requires Inv(w) && n < |w.instances| && Effect(w, v, n)
    ensures RowsOk(v) && NoRepeats(v.confirmed) && forall t | t in v.confirmed :: t in v.claimed
  {
  }

  lemma HolderKeeps(w: World, v: World, n: nat, m: nat)
    requires Inv(w) && n < |w.instances| && m < |w.instances| && Effect(w, v, n)
    ensures HolderOk(v, v.instances[m])
  {
    assert HolderOk(w, w.instances[m]) && HolderOk(w, w.instances[n]);
    if m < n { assert Apart(w.instances[m], w.instances[n]); }
    if n < m { assert Apart(w.instances[n], w.instances[m]); }
  }

  lemma ApartKeeps(w: World, v: World, n: nat, k: nat, m: nat)
    requires Inv(w) && n < |w.instances| && k < m < |w.instances| && Effect(w, v, n)
    ensures Apart(v.instances[k], v.instances[m])
  {
  }

  lemma EffectKeeps(w: World, v: World, n: nat)
    requires Inv(w) && n < |w.instances| && Effect(w, v, n)
    ensures Inv(v)
  {
    RowsKeep(w, v, n);
    forall m | 0 <= m < |w.instances| ensures HolderOk(v, v.instances[m]) { HolderKeeps(w, v, n, m); }
    forall k, m | 0 <= k < m < |w.instances|
      ensures Apart(v.instances[k], v.instances[m])
    {
      ApartKeeps(w, v, n, k, m);
    }
  }

  lemma {:induction false} RunsKeep(env: Env, size: nat, schedule: Schedule)
    ensures Inv(Run(env, size, schedule))
  {
    if schedule != [] {
      var w, turn := Run(env, size, schedule[..|schedule| - 1]), schedule[|schedule| - 1];
      RunsKeep(env, size, schedule[..|schedule| - 1]);
      if turn.0 < size {
        StepEffect(w, turn.0, turn.1, Next(w, turn.0, turn.1));
        EffectKeeps(w, Next(w, turn.0, turn.1), turn.0);
      }
    }
  }

  /** Over any run, no token occurs twice among the successful confirmations. */
  lemma OneSuccessPerLink(env: Env, size: nat, schedule: Schedule, i: nat, j: nat)
    requires i < j < |Run(env, size, schedule).confirmed|
    ensures Run(env, size, schedule).confirmed[i] != Run(env, size, schedule).confirmed[j]
  {
    RunsKeep(env, size, schedule);
  }
}
