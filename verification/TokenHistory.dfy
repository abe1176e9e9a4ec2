/** What sessions and signing links give, from the calls made so far alone, with cleanups anywhere among them. */
module TokenHistory {
  import opened Domain
  import T = Tables
  import opened Cleanup

  /** The call, unless it is a cleanup. */
  function Keep(db: T.Tables, c: Call): T.Tables { if c.op.Clean? then db else Exec(db, c.op, c.now).0 }

  lemma LastUncleaned(db: T.Tables, calls: seq<Call>)
    requires calls != []
    ensures Run(db, Uncleaned(calls)) == Keep(Run(db, Uncleaned(calls[..|calls| - 1])), calls[|calls| - 1])
  {
    var init := calls[..|calls| - 1];
    if calls[|calls| - 1].op.Clean? {
      assert Uncleaned(calls) == Uncleaned(init);
    } else {
      assert Uncleaned(calls)[..|Uncleaned(init)|] == Uncleaned(init);
    }
  }

  // ---- Sessions ----

  /** The call that opened the session. */
  function Opening(calls: seq<Call>, token: string): (r: Option<Op>)
    ensures r.Some? ==> r.value.OpenSession?
  {
    if calls == [] then None
    else
      var op := calls[|calls| - 1].op;
      if op.OpenSession? && op.token == token then Some(op) else Opening(calls[..|calls| - 1], token)
  }

  /** Since it was opened the session has been closed, by itself or with all others of its user. */
  predicate Closed(calls: seq<Call>, token: string) {
    calls != [] &&
    var init, op := calls[..|calls| - 1], calls[|calls| - 1].op;
    || Closed(init, token)
    || (Opening(init, token).Some?
        && (op == CloseSession(token) || op == CloseUserSessions(Opening(init, token).value.phone)))
  }

  predicate SessionTold(sessions: map<string, T.SessionRow>, calls: seq<Call>, token: string) {
    && (token in sessions <==> Opening(calls, token).Some?)
    && (token in sessions ==>
          var op, row := Opening(calls, token).value, sessions[token];
          row.phone == op.phone && row.expiresAt == op.expiresAt && (row.revokedAt.Some? <==> Closed(calls, token)))
    && (token !in sessions ==> !Closed(calls, token))
  }

  /** What a call does to the row of one session. */
  predicate SessionMoves(before: map<string, T.SessionRow>, after: map<string, T.SessionRow>, op: Op, token: string) {
    if token in before then
      && token in after && after[token].phone == before[token].phone
      && after[token].expiresAt == before[token].expiresAt
      && (after[token].revokedAt.Some? <==>
            before[token].revokedAt.Some? || op == CloseSession(token) || op == CloseUserSessions(before[token].phone))
      && !(op.OpenSession? && op.token == token)
    else if op.OpenSession? && op.token == token then
      token in after && after[token] == T.SessionRow(op.phone, op.expiresAt, None)
    else token !in after
  }

  lemma OpeningMoves(db: T.Tables, op: Op, token: string)
    requires op.OpenSession? && op.token !in db.sessions
    ensures SessionMoves(db.sessions, db.sessions[op.token := T.SessionRow(op.phone, op.expiresAt, None)], op, token)
  {
  }

  lemma ClosingMoves(db: T.Tables, now: nat, closed: string, token: string)
    ensures SessionMoves(db.sessions, T.RevokeSession(db, closed, now).sessions, CloseSession(closed), token)
  {
  }

  lemma ClosingAllMoves(db: T.Tables, now: nat, phone: string, token: string)
    ensures SessionMoves(db.sessions, T.RevokeUserSessions(db, phone, now).sessions, CloseUserSessions(phone), token)
  {
  }

  lemma CallMovesSession(db: T.Tables, c: Call, token: string)
    requires Drawn(db, c.op)
    ensures SessionMoves(db.sessions, Keep(db, c).sessions, c.op, token)
  {
    var after := Keep(db, c).sessions;
    match c.op
    case OpenSession(_, _, _) => OpeningMoves(db, c.op, token);
    case CloseSession(closed) => ClosingMoves(db, c.now, closed, token);
    case CloseUserSessions(phone) => ClosingAllMoves(db, c.now, phone, token);
    case _ => assert after == db.sessions;
  }

  lemma SessionStep(before: map<string, T.SessionRow>, after: map<string, T.SessionRow>, calls: seq<Call>, c: Call,
                    token: string)
    requires SessionTold(before, calls, token) && SessionMoves(before, after, c.op, token)
    ensures SessionTold(after, calls + [c], token)
  {
    assert (calls + [c])[..|calls|] == calls;
  }

  lemma {:induction false} SessionsTold(db: T.Tables, calls: seq<Call>, token: string)
    requires Feasible(db, calls) && token !in db.sessions
    ensures SessionTold(Run(db, Uncleaned(calls)).sessions, calls, token)
  {
    if calls != [] {
      var init, c := calls[..|calls| - 1], calls[|calls| - 1];
      SessionsTold(db, init, token);
      LastUncleaned(db, calls);
      assert init + [c] == calls;
      var kept := Run(db, Uncleaned(init));
      CallMovesSession(kept, c, token);
      SessionStep(kept.sessions, Keep(kept, c).sessions, init, c, token);
    }
  }

  /** A session is there exactly from the call that opens it until one closes it or it expires. */
  lemma {:induction false} SessionReadableIff(db: T.Tables, calls: seq<Call>, token: string, now: nat)
    requires Feasible(db, calls) && LastTime(calls) <= now && token !in db.sessions
    ensures var op := Opening(calls, token);
            Ask(db, calls, Call(ReadSession(token), now)) ==
              Session(if op.Some? && !Closed(calls, token) && now < op.value.expiresAt
                      then Some((op.value.phone, op.value.expiresAt)) else None)
  {
    SessionsTold(db, calls, token);
    CleanupUnobservable(db, calls, Call(ReadSession(token), now));
  }

  // ---- Signing links ----

  /** The call that saved the link, for a document that is there. */
  function Linking(documents: map<string, Document>, calls: seq<Call>, token: string): (r: Option<Op>)
    ensures r.Some? ==> r.value.SaveLink?
  {
    if calls == [] then None
    else
      var op := calls[|calls| - 1].op;
      if op.SaveLink? && op.token == token && op.documentID in documents then Some(op)
      else Linking(documents, calls[..|calls| - 1], token)
  }

  predicate Used(documents: map<string, Document>, calls: seq<Call>, token: string) {
    calls != [] &&
    var init, op := calls[..|calls| - 1], calls[|calls| - 1].op;
    Used(documents, init, token) || (Linking(documents, init, token).Some? && op == UseLink(token))
  }

  predicate LinkTold(db: T.Tables, documents: map<string, Document>, calls: seq<Call>, token: string) {
    && db.documents == documents
    && (token in db.links <==> Linking(documents, calls, token).Some?)
    && (token in db.links ==>
          var op, row := Linking(documents, calls, token).value, db.links[token];
          && row.documentID == op.documentID && row.expiresAt == op.expiresAt
          && (row.usedAt.Some? <==> Used(documents, calls, token)))
    && (token !in db.links ==> !Used(documents, calls, token))
  }

  /** What a call does to the row of one link. */
  predicate LinkMoves(before: T.Tables, after: T.Tables, op: Op, token: string) {
    && after.documents == before.documents
    && if token in before.links then
         && token in after.links && after.links[token].documentID == before.links[token].documentID
         && after.links[token].expiresAt == before.links[token].expiresAt
         && (after.links[token].usedAt.Some? <==> before.links[token].usedAt.Some? || op == UseLink(token))
         && !(op.SaveLink? && op.token == token)
       else if op.SaveLink? && op.token == token && op.documentID in before.documents then
         token in after.links && after.links[token] == T.LinkRow(op.documentID, op.expiresAt, None)
       else token !in after.links
  }

  lemma CallMovesLink(db: T.Tables, c: Call, token: string)
    requires Drawn(db, c.op)
    ensures LinkMoves(db, Keep(db, c), c.op, token)
  {
  }

  lemma LinkStep(before: T.Tables, after: T.Tables, documents: map<string, Document>, calls: seq<Call>, c: Call,
                 token: string)
    requires LinkTold(before, documents, calls, token) && LinkMoves(before, after, c.op, token)
    ensures LinkTold(after, documents, calls + [c], token)
  {
    assert (calls + [c])[..|calls|] == calls;
  }

  lemma {:induction false} LinksTold(db: T.Tables, calls: seq<Call>, token: string)
    requires Feasible(db, calls) && token !in db.links
    ensures LinkTold(Run(db, Uncleaned(calls)), db.documents, calls, token)
  {
    if calls != [] {
      var init, c := calls[..|calls| - 1], calls[|calls| - 1];
      LinksTold(db, init, token);
      LastUncleaned(db, calls);
      assert init + [c] == calls;
      var kept := Run(db, Uncleaned(init));
      CallMovesLink(kept, c, token);
      LinkStep(kept, Keep(kept, c), db.documents, init, c, token);
    }
  }

  /** A link leads to its document exactly from the call that saves it until one uses it or it expires; and a use
      before the expiry succeeds exactly when the link has been saved and not been used. */
  lemma {:induction false} LinkUsableIff(db: T.Tables, calls: seq<Call>, token: string, now: nat)
    requires Feasible(db, calls) && LastTime(calls) <= now && token !in db.links
    ensures var op, used := Linking(db.documents, calls, token), Used(db.documents, calls, token);
            && Ask(db, calls, Call(LoadLink(token), now)) ==
                 Link(if op.Some? && !used && now < op.value.expiresAt
                      then Some((op.value.documentID, op.value.expiresAt)) else None)
            && (op.Some? && now <= op.value.expiresAt ==>
                  Ask(db, calls, Call(UseLink(token), now)) == if used then Refused else Cleanup.Done)
            && (op.None? ==> Ask(db, calls, Call(UseLink(token), now)) == Refused)
  {
    LinksTold(db, calls, token);
    CleanupUnobservable(db, calls, Call(LoadLink(token), now));
    CleanupUnobservable(db, calls, Call(UseLink(token), now));
  }
}
