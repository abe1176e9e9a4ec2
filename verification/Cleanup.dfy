/** Deleting expired security rows cannot be observed through the calls that read them. */
module Cleanup {
  import opened Domain
  import opened Tables

  /** The calls, each a statement of its own; a validation is two of them, with others in between. */
  datatype Op =
    | SaveLink(token: string, documentID: string, expiresAt: nat)
    | LoadLink(token: string)
    | UseLink(token: string)
    | SaveCode(key: OtpKey, digest: string, expiresAt: nat)
    | MatchCode(key: OtpKey, digest: string)
    | CountWrongCode(key: OtpKey)
    | OpenSession(token: string, phone: string, expiresAt: nat)
    | ReadSession(token: string)
    | CloseSession(token: string)
    | CloseUserSessions(phone: string)
    | Clean

  datatype Answer =
    | Done
    | Refused
    | Link(link: Option<(string, nat)>)
    | Valid(ok: bool)
    | Session(session: Option<(string, nat)>)

  function Saved(db: Tables, o: Option<Tables>): (Tables, Answer) {
    if o.Some? then (o.value, Done) else (db, Refused)
  }

  function Exec(db: Tables, op: Op, now: nat): (Tables, Answer) {
    match op
    case SaveLink(token, id, expiresAt) => Saved(db, SaveSigningLink(db, token, id, expiresAt))
    case LoadLink(token) => (db, Link(LoadSigningLink(db, token, now)))
    case UseLink(token) => Saved(db, UseSigningLink(db, token, now))
    case SaveCode(key, digest, expiresAt) => (SaveOTP(db, key, digest, expiresAt), Done)
    case MatchCode(key, digest) =>
      if OtpMatches(db, key, digest, now) then (ConsumeOTP(db, key), Valid(true)) else (db, Valid(false))
    case CountWrongCode(key) => (CountFailure(db, key, now), Done)
    case OpenSession(token, phone, expiresAt) => Saved(db, SaveSession(db, token, phone, expiresAt))
    case ReadSession(token) => (db, Session(LoadSession(db, token, now)))
    case CloseSession(token) => (RevokeSession(db, token, now), Done)
    case CloseUserSessions(phone) => (RevokeUserSessions(db, phone, now), Done)
    case Clean => (CleanupExpired(db, now), Done)
  }

  datatype Call = Call(op: Op, now: nat)

  function Run(db: Tables, calls: seq<Call>): Tables {
    if calls == [] then db else Exec(Run(db, calls[..|calls| - 1]), calls[|calls| - 1].op, calls[|calls| - 1].now).0
  }

  /** The answer to one more call. */
  function Ask(db: Tables, calls: seq<Call>, c: Call): Answer { Exec(Run(db, calls), c.op, c.now).1 }

  /** The same calls without the cleanups. */
  function Uncleaned(calls: seq<Call>): seq<Call> {
    if calls == [] then []
    else Uncleaned(calls[..|calls| - 1]) + if calls[|calls| - 1].op.Clean? then [] else [calls[|calls| - 1]]
  }

  function LastTime(calls: seq<Call>): nat { if calls == [] then 0 else calls[|calls| - 1].now }

  /** Tokens are drawn fresh. */
  predicate Drawn(db: Tables, op: Op) {
    (op.SaveLink? ==> op.token !in db.links) && (op.OpenSession? ==> op.token !in db.sessions)
  }

  /** The clock never decreases, and a new token is on no row of the uncleaned tables. */
  predicate Feasible(db: Tables, calls: seq<Call>) {
    calls == [] ||
    var init, c := calls[..|calls| - 1], calls[|calls| - 1];
    Feasible(db, init) && LastTime(init) <= c.now && Drawn(Run(db, Uncleaned(init)), c.op)
  }

  /** `thin` is `full` without some rows that were dead by `now`. */
  ghost predicate ThinOtp(thin: map<OtpKey, OtpRow>, full: map<OtpKey, OtpRow>, now: nat) {
    && (forall k | k in thin :: k in full && thin[k] == full[k])
    && (forall k | k in full && k !in thin :: DeadOtp(full[k], now))
  }

  ghost predicate ThinLinks(thin: map<string, LinkRow>, full: map<string, LinkRow>, now: nat) {
    && (forall t | t in thin :: t in full && thin[t] == full[t])
    && (forall t | t in full && t !in thin :: DeadLink(full[t], now))
  }

  ghost predicate ThinSessions(thin: map<string, SessionRow>, full: map<string, SessionRow>, now: nat) {
    && (forall t | t in thin :: t in full && thin[t] == full[t])
    && (forall t | t in full && t !in thin :: DeadSession(full[t], now))
  }

  ghost predicate Thinned(thin: Tables, full: Tables, now: nat) {
    && thin == full.(links := thin.links, otp := thin.otp, sessions := thin.sessions)
    && ThinOtp(thin.otp, full.otp, now) && ThinLinks(thin.links, full.links, now)
    && ThinSessions(thin.sessions, full.sessions, now)
  }

  /** The one call that can tell: using a link that has expired unused. */
  predicate UsesExpired(full: Tables, op: Op, now: nat) {
    op.UseLink? && op.token in full.links && full.links[op.token].usedAt.None? && full.links[op.token].expiresAt < now
  }

  lemma CleanThins(thin: Tables, full: Tables, last: nat, now: nat)
    requires Thinned(thin, full, last) && last <= now
    ensures Thinned(CleanupExpired(thin, now), full, now)
  {
  }

  lemma SaveLinkAgrees(thin: Tables, full: Tables, last: nat, token: string, id: string, expiresAt: nat, now: nat)
    requires Thinned(thin, full, last) && last <= now && token !in full.links
    ensures var a, b := SaveSigningLink(thin, token, id, expiresAt), SaveSigningLink(full, token, id, expiresAt);
            (a.Some? <==> b.Some?) && (a.Some? ==> Thinned(a.value, b.value, now))
  {
  }

  lemma UseLinkAgrees(thin: Tables, full: Tables, last: nat, token: string, now: nat)
    requires Thinned(thin, full, last) && last <= now
    ensures var a, b := UseSigningLink(thin, token, now), UseSigningLink(full, token, now);
            && Thinned(if a.Some? then a.value else thin, if b.Some? then b.value else full, now)
            && (!UsesExpired(full, UseLink(token), now) ==> (a.Some? <==> b.Some?))
  {
  }

  lemma Ages(thin: Tables, full: Tables, last: nat, now: nat)
    requires Thinned(thin, full, last) && last <= now
    ensures Thinned(thin, full, now)
  {
  }

  lemma ConsumeAgrees(thin: Tables, full: Tables, last: nat, key: OtpKey, digest: string, now: nat)
    requires Thinned(thin, full, last) && last <= now
    ensures OtpMatches(thin, key, digest, now) <==> OtpMatches(full, key, digest, now)
    ensures OtpMatches(full, key, digest, now) ==> Thinned(ConsumeOTP(thin, key), ConsumeOTP(full, key), now)
  {
  }

  lemma CountAgrees(thin: Tables, full: Tables, last: nat, key: OtpKey, now: nat)
    requires Thinned(thin, full, last) && last <= now
    ensures Thinned(CountFailure(thin, key, now), CountFailure(full, key, now), now)
  {
    Ages(thin, full, last, now);
    if key in thin.otp {
      assert key in full.otp && thin.otp[key] == full.otp[key];
    } else {
      assert CountFailure(full, key, now) == full;
    }
  }

  lemma OpenSessionAgrees(thin: Tables, full: Tables, last: nat, token: string, phone: string, expiresAt: nat, now: nat)
    requires Thinned(thin, full, last) && last <= now && token !in full.sessions
    ensures var a, b := SaveSession(thin, token, phone, expiresAt), SaveSession(full, token, phone, expiresAt);
            a.Some? && b.Some? && Thinned(a.value, b.value, now)
  {
  }

  lemma RevokeAgrees(thin: Tables, full: Tables, last: nat, token: string, now: nat)
    requires Thinned(thin, full, last) && last <= now
    ensures Thinned(RevokeSession(thin, token, now), RevokeSession(full, token, now), now)
  {
    Ages(thin, full, last, now);
    if token in thin.sessions {
      assert token in full.sessions && thin.sessions[token] == full.sessions[token];
    } else if token in full.sessions {
      assert DeadSession(Revoked(full.sessions[token], now), now);
    }
  }

  lemma RevokeUserAgrees(thin: Tables, full: Tables, last: nat, phone: string, now: nat)
    requires Thinned(thin, full, last) && last <= now
    ensures Thinned(RevokeUserSessions(thin, phone, now), RevokeUserSessions(full, phone, now), now)
  {
  }

  lemma ReadsAgree(thin: Tables, full: Tables, last: nat, token: string, now: nat)
    requires Thinned(thin, full, last) && last <= now
    ensures LoadSigningLink(thin, token, now) == LoadSigningLink(full, token, now)
    ensures LoadSession(thin, token, now) == LoadSession(full, token, now)
  {
  }

  lemma SaveCodeAgrees(thin: Tables, full: Tables, last: nat, key: OtpKey, digest: string, expiresAt: nat, now: nat)
    requires Thinned(thin, full, last) && last <= now
    ensures Thinned(SaveOTP(thin, key, digest, expiresAt), SaveOTP(full, key, digest, expiresAt), now)
  {
  }

  lemma CallsAgree(thin: Tables, full: Tables, last: nat, op: Op, now: nat)
    requires Thinned(thin, full, last) && last <= now && Drawn(full, op) && !op.Clean?
    ensures Thinned(Exec(thin, op, now).0, Exec(full, op, now).0, now)
    ensures !UsesExpired(full, op, now) ==> Exec(thin, op, now).1 == Exec(full, op, now).1
  {
    match op
    case SaveLink(token, id, expiresAt) =>
      Ages(thin, full, last, now);
      SaveLinkAgrees(thin, full, last, token, id, expiresAt, now);
    case LoadLink(token) =>
      Ages(thin, full, last, now);
      ReadsAgree(thin, full, last, token, now);
    case UseLink(token) => UseLinkAgrees(thin, full, last, token, now);
    case SaveCode(key, digest, expiresAt) => SaveCodeAgrees(thin, full, last, key, digest, expiresAt, now);
    case MatchCode(key, digest) =>
      Ages(thin, full, last, now);
      ConsumeAgrees(thin, full, last, key, digest, now);
    case CountWrongCode(key) => CountAgrees(thin, full, last, key, now);
    case OpenSession(token, phone, expiresAt) => OpenSessionAgrees(thin, full, last, token, phone, expiresAt, now);
    case ReadSession(token) =>
      Ages(thin, full, last, now);
      ReadsAgree(thin, full, last, token, now);
    case CloseSession(token) => RevokeAgrees(thin, full, last, token, now);
    case CloseUserSessions(phone) => RevokeUserAgrees(thin, full, last, phone, now);
    case Clean =>
  }

  lemma {:induction false} RunsThin(db: Tables, calls: seq<Call>)
    requires Feasible(db, calls)
    ensures Thinned(Run(db, calls), Run(db, Uncleaned(calls)), LastTime(calls))
  {
    if calls != [] {
      var init, c := calls[..|calls| - 1], calls[|calls| - 1];
      RunsThin(db, init);
      if c.op.Clean? {
        assert Uncleaned(calls) == Uncleaned(init);
        CleanThins(Run(db, init), Run(db, Uncleaned(init)), LastTime(init), c.now);
      } else {
        assert Uncleaned(calls)[..|Uncleaned(init)|] == Uncleaned(init);
        CallsAgree(Run(db, init), Run(db, Uncleaned(init)), LastTime(init), c.op, c.now);
      }
    }
  }

  lemma AnswersAgree(thin: Tables, full: Tables, last: nat, op: Op, now: nat)
    requires Thinned(thin, full, last) && last <= now && Drawn(full, op)
    ensures !UsesExpired(full, op, now) ==> Exec(thin, op, now).1 == Exec(full, op, now).1
  {
  }

  /** Cleanups inserted anywhere in a run change no later answer, except to the use of an expired link. */
  lemma {:induction false} CleanupUnobservable(db: Tables, calls: seq<Call>, c: Call)
    requires Feasible(db, calls) && LastTime(calls) <= c.now && Drawn(Run(db, Uncleaned(calls)), c.op)
    ensures !UsesExpired(Run(db, Uncleaned(calls)), c.op, c.now) ==> Ask(db, calls, c) == Ask(db, Uncleaned(calls), c)
  {
    RunsThin(db, calls);
    AnswersAgree(Run(db, calls), Run(db, Uncleaned(calls)), LastTime(calls), c.op, c.now);
  }

  lemma UseDiffers(thin: Tables, full: Tables, last: nat, token: string, now: nat)
    requires Thinned(thin, full, last) && last <= now
    ensures Exec(thin, UseLink(token), now).1 != Exec(full, UseLink(token), now).1
            <==> UsesExpired(full, UseLink(token), now) && token !in thin.links
  {
  }

  /** And that exception is exact, over whole runs: an answer differs exactly when the call uses a link that has
      expired unused and that a cleanup has removed by then. The service checks a link's expiry before it uses it. */
  lemma ExpiredUseIsVisible(db: Tables, calls: seq<Call>, c: Call)
    requires Feasible(db, calls) && LastTime(calls) <= c.now && Drawn(Run(db, Uncleaned(calls)), c.op)
    ensures Ask(db, calls, c) != Ask(db, Uncleaned(calls), c)
            <==> UsesExpired(Run(db, Uncleaned(calls)), c.op, c.now) && c.op.token !in Run(db, calls).links
  {
    RunsThin(db, calls);
    if c.op.UseLink? {
      UseDiffers(Run(db, calls), Run(db, Uncleaned(calls)), LastTime(calls), c.op.token, c.now);
    } else {
      AnswersAgree(Run(db, calls), Run(db, Uncleaned(calls)), LastTime(calls), c.op, c.now);
    }
  }

  /** The two statements of a validation, one right after the other. */
  lemma ValidationIsTwoCalls(db: Tables, key: OtpKey, digest: string, now: nat)
    ensures var first := Exec(db, MatchCode(key, digest), now);
            ValidateOTP(db, key, digest, now) ==
              if first.1 == Valid(true) then (first.0, true) else (Exec(first.0, CountWrongCode(key), now).0, false)
  {
  }

  // ---- What a cleanup removes ----

  const WEEK: nat := 7 * 24 * 3600 * 1_000_000_000

  /** Used or revoked, if at all, within the last seven days. */
  predicate Recent(at: Option<nat>, now: nat) { at.None? || now <= at.value + WEEK }

  /** `after` holds exactly the rows of `before` that have neither expired nor been out of use for over seven days. */
  ghost predicate Cleaned(before: Tables, after: Tables, now: nat) {
    && after == before.(otp := after.otp, links := after.links, sessions := after.sessions)
    && (forall k :: k in after.otp <==> k in before.otp && now <= before.otp[k].expiresAt)
    && (forall k | k in after.otp :: after.otp[k] == before.otp[k])
    && (forall t :: t in after.links <==>
          t in before.links && now <= before.links[t].expiresAt && Recent(before.links[t].usedAt, now))
    && (forall t | t in after.links :: after.links[t] == before.links[t])
    && (forall t :: t in after.sessions <==>
          t in before.sessions && now <= before.sessions[t].expiresAt && Recent(before.sessions[t].revokedAt, now))
    && (forall t | t in after.sessions :: after.sessions[t] == before.sessions[t])
  }

  lemma CleanupCleans(db: Tables, now: nat)
    ensures Cleaned(db, CleanupExpired(db, now), now)
  {
  }

  /** Wherever in a run a cleanup comes: no expired row survives it, and what it removes had expired or aged. */
  lemma {:induction false} RunsClean(db: Tables, calls: seq<Call>, now: nat)
    ensures Cleaned(Run(db, calls), Run(db, calls + [Call(Clean, now)]), now)
  {
    assert (calls + [Call(Clean, now)])[..|calls|] == calls;
    CleanupCleans(Run(db, calls), now);
  }
}
