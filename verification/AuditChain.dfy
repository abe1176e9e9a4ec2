/** The hash-chained audit log: what is hashed, why it can be decoded, and what a verified chain fixes. */
module AuditChain {
  import opened Domain

  function Preimage(env: Env, e: AuditEvent): string {
    e.id + e.documentID + e.action + e.payloadHash + e.previousHash + env.render(e.occurredAt)
  }

  /** The shape of the eight action names: 10 to 23 characters, none of them a dash. */
  predicate IsAction(s: string) { 10 <= |s| <= 23 && '-' !in s }

  lemma ActionsAreActions()
    ensures IsAction(CREATED) && IsAction(UPLOADED) && IsAction(SENT) && IsAction(CHALLENGED)
    ensures IsAction(AGREED) && IsAction(PEP_SIGNED) && IsAction(UKEP_REQUESTED) && IsAction(UKEP_SIGNED)
  {
  }

  /** The shapes of the fields of every event the service appends. */
  predicate WellFormed(e: AuditEvent) {
    && |e.id| == |e.documentID| == ID_LENGTH
    && IsAction(e.action)
    && IsDigest(e.payloadHash)
    && (e.previousHash == "" || IsDigest(e.previousHash))
  }

  predicate AllWellFormed(events: seq<AuditEvent>) {
    forall i | 0 <= i < |events| :: WellFormed(events[i])
  }

  /** The hashed fields, the instant as rendered; ActorID is not among them. */
  datatype Hashed = Hashed(
    id: string, documentID: string, action: string, payloadHash: string, previousHash: string, stamp: string)

  function HashedFields(env: Env, e: AuditEvent): Hashed {
    Hashed(e.id, e.documentID, e.action, e.payloadHash, e.previousHash, env.render(e.occurredAt))
  }

  // ---- The concatenation is decodable ----

  function FirstDash(s: string, from: nat): (k: nat)
    requires from <= |s|
    ensures from <= k <= |s| && '-' !in s[from..k]
    ensures k < |s| ==> s[k] == '-'
    decreases |s| - from
  {
    if from == |s| || s[from] == '-' then from
    else
      var k := FirstDash(s, from + 1);
      assert s[from..k] == [s[from]] + s[from + 1..k];
      k
  }

  /** Reads the fields back: the first dash after the two identifiers ends the year, and the distance to it
      tells a first event, which has no previous hash, from a later one. */
  function Decode(p: string): Option<Hashed> {
    if |p| < 2 * ID_LENGTH then None
    else
      var year := FirstDash(p, 2 * ID_LENGTH) - 4;
      var previous := if year >= 2 * ID_LENGTH + 10 + 128 then 64 else 0;
      var payload := year - previous - 64;
      if payload < 2 * ID_LENGTH then None
      else Some(Hashed(p[..36], p[36..72], p[72..payload], p[payload..payload + 64], p[payload + 64..year], p[year..]))
  }

  lemma DecodePreimage(env: Env, e: AuditEvent)
    requires WellFormed(e)
    ensures Decode(Preimage(env, e)) == Some(HashedFields(env, e))
  {
    FieldsOf(env, e);
    YearDash(env, e);
    var p, k := Preimage(env, e), FirstDash(Preimage(env, e), 72);
    assert k == 72 + |e.action| + 64 + |e.previousHash| + 4;
  }

  /** The first dash after the two identifiers is the one that ends the year. */
  lemma YearDash(env: Env, e: AuditEvent)
    requires WellFormed(e)
    ensures var k := 72 + |e.action| + 64 + |e.previousHash| + 4;
            var p := Preimage(env, e);
            k < |p| && p[k] == '-' && '-' !in p[72..k]
  {
  }

  lemma FieldsOf(env: Env, e: AuditEvent)
    requires WellFormed(e)
    ensures var p, a := Preimage(env, e), 72 + |e.action|;
            && p[..36] == e.id && p[36..72] == e.documentID && p[72..a] == e.action && p[a..a + 64] == e.payloadHash
            && p[a + 64..a + 64 + |e.previousHash|] == e.previousHash
            && p[a + 64 + |e.previousHash|..] == env.render(e.occurredAt)
  {
  }

  /** Equal hash inputs mean equal fields. */
  lemma UniquelyDecodable(env: Env, x: AuditEvent, y: AuditEvent)
    requires WellFormed(x) && WellFormed(y) && Preimage(env, x) == Preimage(env, y)
    ensures HashedFields(env, x) == HashedFields(env, y)
  {
    DecodePreimage(env, x);
    DecodePreimage(env, y);
  }

  /** The field shapes are needed: a character moved from the end of the action to the front of the payload
      leaves the hash input, and so the hash, unchanged. */
  lemma AmbiguousWithoutShapes(env: Env, e: AuditEvent, action: string, c: char)
    requires e.action == action + [c]
    ensures var f := e.(action := action, payloadHash := [c] + e.payloadHash);
            HashedFields(env, f) != HashedFields(env, e) && Preimage(env, f) == Preimage(env, e)
  {
  }

  // ---- Verified chains ----

  function PreviousHash(events: seq<AuditEvent>, i: nat): string
    requires i <= |events|
  {
    if i == 0 then "" else events[i - 1].hash
  }

  ghost predicate LinkedAt(env: Env, events: seq<AuditEvent>, i: nat)
    requires i < |events|
  {
    events[i].previousHash == PreviousHash(events, i) && events[i].hash == env.sha(Preimage(env, events[i]))
  }

  /** Every event names its predecessor's hash and carries the hash of its own fields. */
  ghost predicate Verified(env: Env, events: seq<AuditEvent>) {
    forall i | 0 <= i < |events| :: LinkedAt(env, events, i)
  }

  /** No two different hash inputs among the events of `xs` and `ys` have the same digest. */
  ghost predicate NoCollision(env: Env, xs: seq<AuditEvent>, ys: seq<AuditEvent>) {
    forall x, y | x in xs && y in ys && env.sha(Preimage(env, x)) == env.sha(Preimage(env, y)) ::
      Preimage(env, x) == Preimage(env, y)
  }

  ghost predicate SameHashedFields(env: Env, xs: seq<AuditEvent>, ys: seq<AuditEvent>) {
    |xs| == |ys| && forall i | 0 <= i < |xs| :: HashedFields(env, xs[i]) == HashedFields(env, ys[i])
  }

  /** A verified chain is fixed by its last hash: its length and every hashed field of every event. */
  lemma {:induction false} LastHashFixesChain(env: Env, xs: seq<AuditEvent>, ys: seq<AuditEvent>)
    requires Verified(env, xs) && Verified(env, ys) && AllWellFormed(xs) && AllWellFormed(ys)
    requires NoCollision(env, xs, ys)
    requires PreviousHash(xs, |xs|) == PreviousHash(ys, |ys|)
    ensures SameHashedFields(env, xs, ys)
  {
    NonEmptyHash(env, xs);
    NonEmptyHash(env, ys);
    if |xs| > 0 && |ys| > 0 {
      var m, n := |xs| - 1, |ys| - 1;
      EqualHashes(env, xs, ys, m, n);
      VerifiedPrefix(env, xs, m);
      VerifiedPrefix(env, ys, n);
      LastHashFixesChain(env, xs[..m], ys[..n]);
      forall i | 0 <= i < |xs| ensures HashedFields(env, xs[i]) == HashedFields(env, ys[i]) {
        if i < m { assert xs[i] == xs[..m][i] && ys[i] == ys[..n][i]; }
      }
    }
  }

  lemma NonEmptyHash(env: Env, events: seq<AuditEvent>)
    requires Verified(env, events)
    ensures PreviousHash(events, |events|) == "" <==> events == []
    ensures events != [] ==>
              var n := |events| - 1;
              events[n].previousHash == PreviousHash(events, n) == PreviousHash(events[..n], n)
  {
    if events != [] { assert LinkedAt(env, events, |events| - 1); }
  }

  lemma EqualHashes(env: Env, xs: seq<AuditEvent>, ys: seq<AuditEvent>, i: nat, j: nat)
    requires i < |xs| && j < |ys| && xs[i].hash == ys[j].hash
    requires Verified(env, xs) && Verified(env, ys) && AllWellFormed(xs) && AllWellFormed(ys)
    requires NoCollision(env, xs, ys)
    ensures HashedFields(env, xs[i]) == HashedFields(env, ys[j])
  {
    var x, y := xs[i], ys[j];
    assert x in xs && y in ys;
    assert LinkedAt(env, xs, i) && LinkedAt(env, ys, j);
    UniquelyDecodable(env, x, y);
  }

  lemma VerifiedPrefix(env: Env, events: seq<AuditEvent>, k: nat)
    requires Verified(env, events) && k <= |events|
    ensures Verified(env, events[..k])
  {
    forall i | 0 <= i < k ensures LinkedAt(env, events[..k], i) {
      assert LinkedAt(env, events, i) && PreviousHash(events[..k], i) == PreviousHash(events, i);
    }
  }

  /** No two positions of a verified log are linked to the same predecessor hash. */
  lemma {:induction false} PredecessorsDistinct(env: Env, events: seq<AuditEvent>, i: nat, j: nat)
    requires Verified(env, events) && AllWellFormed(events) && NoCollision(env, events, events)
    requires i < j <= |events|
    ensures PreviousHash(events, i) != PreviousHash(events, j)
  {
    assert LinkedAt(env, events, j - 1);
    if i > 0 && events[i - 1].hash == events[j - 1].hash {
      assert LinkedAt(env, events, i - 1);
      EqualHashes(env, events, events, i - 1, j - 1);
      PredecessorsDistinct(env, events, i - 1, j - 1);
    }
  }

  // ---- One document's events ----

  /** The events of one document, in log order. */
  function EventsOf(audit: seq<AuditEvent>, id: string): (r: seq<AuditEvent>)
    ensures |r| <= |audit|
    ensures forall e :: e in r <==> e in audit && e.documentID == id
  {
    if audit == [] then []
    else
      var last := audit[|audit| - 1];
      assert audit == audit[..|audit| - 1] + [last];
      EventsOf(audit[..|audit| - 1], id) + if last.documentID == id then [last] else []
  }

  lemma EventsOfAppend(audit: seq<AuditEvent>, e: AuditEvent, id: string)
    ensures EventsOf(audit + [e], id) == EventsOf(audit, id) + if e.documentID == id then [e] else []
  {
  }

  /** A document's events verify exactly when they are the initial segment of the whole log: the log is one
      chain for all documents, while verification follows one document only. */
  lemma VerifiesIffInitialSegment(env: Env, audit: seq<AuditEvent>, id: string)
    requires Verified(env, audit) && AllWellFormed(audit) && NoCollision(env, audit, audit)
    ensures Verified(env, EventsOf(audit, id)) <==> EventsOf(audit, id) <= audit
  {
    var own := EventsOf(audit, id);
    if Verified(env, own) {
      SegmentGrows(env, audit, own, |own|);
    }
    if own <= audit {
      VerifiedPrefix(env, audit, |own|);
      assert audit[..|own|] == own;
    }
  }

  lemma {:induction false} SegmentGrows(env: Env, audit: seq<AuditEvent>, own: seq<AuditEvent>, k: nat)
    requires Verified(env, audit) && AllWellFormed(audit) && NoCollision(env, audit, audit)
    requires Verified(env, own) && k <= |own| <= |audit| && forall i | 0 <= i < |own| :: own[i] in audit
    ensures forall i | 0 <= i < k :: own[i] == audit[i]
  {
    if k > 0 {
      SegmentGrows(env, audit, own, k - 1);
      assert LinkedAt(env, own, k - 1);
      NextIsNext(env, audit, own[k - 1], k - 1);
    }
  }

  lemma NextIsNext(env: Env, audit: seq<AuditEvent>, e: AuditEvent, k: nat)
    requires Verified(env, audit) && AllWellFormed(audit) && NoCollision(env, audit, audit)
    requires e in audit && k < |audit| && e.previousHash == PreviousHash(audit, k)
    ensures e == audit[k]
  {
    var j :| 0 <= j < |audit| && audit[j] == e;
    assert LinkedAt(env, audit, j);
    if j < k {
      PredecessorsDistinct(env, audit, j, k);
    } else if k < j {
      PredecessorsDistinct(env, audit, k, j);
    }
  }

  /** Events that start anywhere but at the start of a verified log do not verify, whatever the hash function. */
  lemma LaterStartFails(env: Env, audit: seq<AuditEvent>, own: seq<AuditEvent>)
    requires Verified(env, audit) && own != [] && own[0] in audit && own[0] != audit[0]
    ensures !Verified(env, own)
  {
    var i :| 0 < i < |audit| && audit[i] == own[0];
    assert LinkedAt(env, audit, i) && LinkedAt(env, audit, i - 1);
    assert !LinkedAt(env, own, 0);
  }

  // ---- Appending and verifying ----

  /** The event `auditLocked` adds to the log. */
  function NextEvent(env: Env, audit: seq<AuditEvent>, eventID: string, documentID: string, actor: string,
                     action: string, payload: string, now: nat): AuditEvent
  {
    var e := AuditEvent(eventID, documentID, actor, action, payload, PreviousHash(audit, |audit|), "", now);
    e.(hash := env.sha(Preimage(env, e)))
  }

  lemma AppendKeepsVerified(env: Env, audit: seq<AuditEvent>, eventID: string, documentID: string, actor: string,
                            action: string, payload: Digest, now: nat)
    requires Verified(env, audit) && AllWellFormed(audit)
    requires |eventID| == |documentID| == ID_LENGTH && IsAction(action)
    ensures var log := audit + [NextEvent(env, audit, eventID, documentID, actor, action, payload, now)];
            Verified(env, log) && AllWellFormed(log)
  {
    var e := NextEvent(env, audit, eventID, documentID, actor, action, payload, now);
    var log := audit + [e];
    assert audit != [] ==> LinkedAt(env, audit, |audit| - 1);
    assert Preimage(env, e) == Preimage(env, e.(hash := ""));
    forall i | 0 <= i < |log| ensures LinkedAt(env, log, i) && WellFormed(log[i]) {
      assert i < |audit| ==>
        log[i] == audit[i] && LinkedAt(env, audit, i) && PreviousHash(log, i) == PreviousHash(audit, i);
    }
  }

  /** The event names the hash before it, and its own is that of its fields one after the other. */
  predicate FieldsLink(env: Env, events: seq<AuditEvent>, i: nat)
    requires i < |events|
  {
    var e := events[i];
    && e.previousHash == (if i == 0 then "" else events[i - 1].hash)
    && e.hash == env.sha(e.id + e.documentID + e.action + e.payloadHash + e.previousHash + env.render(e.occurredAt))
  }

  /** The verification loop over one document's events. */
  method VerifyEvents(env: Env, events: seq<AuditEvent>) returns (ok: bool)
    ensures ok <==> Verified(env, events)
    ensures ok <==> forall i | 0 <= i < |events| :: FieldsLink(env, events, i)
  {
    var previous := "";
    for i := 0 to |events|
      invariant previous == PreviousHash(events, i)
      invariant forall j | 0 <= j < i :: LinkedAt(env, events, j) && FieldsLink(env, events, j)
    {
      var e := events[i];
      if e.previousHash != previous {
        assert !LinkedAt(env, events, i) && !FieldsLink(env, events, i);
        return false;
      }
      if e.hash != env.sha(Preimage(env, e)) {
        assert !LinkedAt(env, events, i) && !FieldsLink(env, events, i);
        return false;
      }
      previous := e.hash;
    }
    return true;
  }
}
