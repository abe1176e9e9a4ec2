/** What a signing confirmation means in terms of the whole history: which earlier calls make it succeed. */
module SigningHistory {
  import opened Domain
  import opened AuditChain
  import H = CallHistory
  import opened Service
  import opened ServiceRuns

  /** What one call of a run did about a signing token: the calls that name it and that nothing made before refuses. */
  datatype Mark =
    | Nothing
    | SentOn(id: string, actor: string, at: nat)
    | Asked(code: string, at: nat)
    | Confirmed

  function MarkOf(env: Env, past: H.Past, op: Op, token: string): Mark {
    if H.Refusal(env, past, op).Some? then Nothing
    else match op
      case SendOp(id, actor, t, _, now) => if t == token then SentOn(id, actor, now) else Nothing
      case RequestOp(t, code, _, now) => if t == token then Asked(code, now) else Nothing
      case ConfirmOp(c, _, _, _) => if c.token == token then Confirmed else Nothing
      case _ => Nothing
  }

  /** What the calls made refuse is what the service refuses. */
  ghost predicate Foretold(env: Env, s: State, past: H.Past, op: Op) {
    H.Reply(env, s, op).Ok? <==> H.Refusal(env, past, op).None?
  }

  /** The marks of a run, call by call. */
  function History(env: Env, ops: seq<Op>, token: string): (marks: seq<Mark>)
    ensures |marks| == |ops|
  {
    if ops == [] then []
    else History(env, ops[..|ops| - 1], token) + [MarkOf(env, H.History(env, ops[..|ops| - 1]), ops[|ops| - 1], token)]
  }

  /** Call `i` issued the code that is still outstanding: none was issued later, and none was spent. */
  predicate Outstanding(marks: seq<Mark>, i: nat) {
    i < |marks| && marks[i].Asked? && forall j | i < j < |marks| :: !marks[j].Asked? && !marks[j].Confirmed?
  }

  predicate SentAt(marks: seq<Mark>, i: nat) { i < |marks| && marks[i].SentOn? }

  // ---- The link and the challenge of a token, read off its history ----

  /** A link is there exactly when a Send put it there; tokens being fresh, none was overwritten. */
  ghost predicate LinkTold(links: map<string, Link>, marks: seq<Mark>, token: string) {
    && (token in links ==> exists i: nat :: SentAt(marks, i))
    && (forall i: nat | SentAt(marks, i) ::
          token in links && links[token] == Link(marks[i].id, marks[i].at + LINK_LIFETIME))
  }

  /** A challenge is there exactly when its code is outstanding. */
  ghost predicate ChallengeTold(env: Env, challenges: map<string, Challenge>, marks: seq<Mark>, token: string) {
    && (token in challenges ==> exists i: nat :: Outstanding(marks, i))
    && (forall i: nat | Outstanding(marks, i) ::
          token in challenges && challenges[token] == Challenge(env.sha(marks[i].code), marks[i].at + OTP_LIFETIME))
  }

  lemma LinkStep(env: Env, s: State, past: H.Past, op: Op, marks: seq<Mark>, token: string)
    requires LinkTold(s.links, marks, token) && Drawn(s, op) && Foretold(env, s, past, op)
    ensures LinkTold(Apply(env, s, op).links, marks + [MarkOf(env, past, op, token)], token)
  {
    var m, links := MarkOf(env, past, op, token), Apply(env, s, op).links;
    assert m.SentOn? ==> token !in s.links && token in links && links[token] == Link(m.id, m.at + LINK_LIFETIME);
    assert !m.SentOn? ==> (token in links <==> token in s.links) && (token in links ==> links[token] == s.links[token]);
    LinkToldMore(s.links, links, marks, m, token);
  }

  lemma LinkToldMore(before: map<string, Link>, after: map<string, Link>, marks: seq<Mark>, m: Mark, token: string)
    requires LinkTold(before, marks, token)
    requires m.SentOn? ==> token !in before && token in after && after[token] == Link(m.id, m.at + LINK_LIFETIME)
    requires !m.SentOn? ==> (token in after <==> token in before) && (token in after ==> after[token] == before[token])
    ensures LinkTold(after, marks + [m], token)
  {
    var more := marks + [m];
    forall i: nat | SentAt(more, i)
      ensures token in after && after[token] == Link(more[i].id, more[i].at + LINK_LIFETIME)
    {
      if i < |marks| { assert SentAt(marks, i); }
    }
    if token in after {
      if m.SentOn? {
        assert SentAt(more, |marks|);
      } else {
        var i: nat :| SentAt(marks, i);
        assert SentAt(more, i);
      }
    }
  }

  lemma ChallengeStep(env: Env, s: State, past: H.Past, op: Op, marks: seq<Mark>, token: string)
    requires ChallengeTold(env, s.challenges, marks, token) && Foretold(env, s, past, op)
    ensures ChallengeTold(env, Apply(env, s, op).challenges, marks + [MarkOf(env, past, op, token)], token)
  {
    var m, challenges := MarkOf(env, past, op, token), Apply(env, s, op).challenges;
    assert m.Asked? ==> token in challenges && challenges[token] == Challenge(env.sha(m.code), m.at + OTP_LIFETIME);
    assert m.Confirmed? ==> token !in challenges;
    assert !m.Asked? && !m.Confirmed? ==>
      (token in challenges <==> token in s.challenges)
      && (token in challenges ==> challenges[token] == s.challenges[token]);
    ChallengeToldMore(env, s.challenges, challenges, marks, m, token);
  }

  lemma ChallengeToldMore(env: Env, before: map<string, Challenge>, after: map<string, Challenge>, marks: seq<Mark>,
                          m: Mark, token: string)
    requires ChallengeTold(env, before, marks, token)
    requires m.Asked? ==> token in after && after[token] == Challenge(env.sha(m.code), m.at + OTP_LIFETIME)
    requires m.Confirmed? ==> token !in after
    requires !m.Asked? && !m.Confirmed? ==>
               (token in after <==> token in before) && (token in after ==> after[token] == before[token])
    ensures ChallengeTold(env, after, marks + [m], token)
  {
    var n, more := |marks|, marks + [m];
    forall i: nat | Outstanding(more, i)
      ensures token in after && after[token] == Challenge(env.sha(more[i].code), more[i].at + OTP_LIFETIME)
    {
      if i < n {
        assert more[n] == m;
        assert forall j | i < j < n :: more[j] == marks[j];
        assert Outstanding(marks, i);
      }
    }
    if token in after {
      if m.Asked? {
        assert Outstanding(more, n);
      } else {
        var i: nat :| Outstanding(marks, i);
        assert Outstanding(more, i);
      }
    }
  }

  lemma {:induction false} Told(env: Env, ops: seq<Op>, token: string)
    requires Feasible(env, ops)
    ensures var marks := History(env, ops, token);
            LinkTold(Run(env, ops).links, marks, token) && ChallengeTold(env, Run(env, ops).challenges, marks, token)
  {
    if ops != [] {
      var init, op := ops[..|ops| - 1], ops[|ops| - 1];
      Told(env, init, token);
      H.RepliesAreTold(env, init, op);
      LinkStep(env, Run(env, init), H.History(env, init), op, History(env, init, token), token);
      ChallengeStep(env, Run(env, init), H.History(env, init), op, History(env, init, token), token);
    }
  }

  lemma LastMark(env: Env, ops: seq<Op>, token: string)
    requires ops != []
    ensures var init, op := ops[..|ops| - 1], ops[|ops| - 1];
            History(env, ops, token) == History(env, init, token) + [MarkOf(env, H.History(env, init), op, token)]
  {
  }

  lemma {:induction false} HistoryAt(env: Env, ops: seq<Op>, token: string, i: nat)
    requires i < |ops|
    ensures History(env, ops, token)[i] == MarkOf(env, H.History(env, ops[..i]), ops[i], token)
    ensures History(env, ops[..i], token) == History(env, ops, token)[..i]
  {
    var n := |ops| - 1;
    LastMark(env, ops, token);
    if i < n {
      HistoryAt(env, ops[..n], token, i);
      assert ops[..n][..i] == ops[..i];
    }
  }

  lemma {:induction false} FeasiblePrefix(env: Env, ops: seq<Op>, n: nat)
    requires Feasible(env, ops) && n <= |ops|
    ensures Feasible(env, ops[..n])
  {
    if n < |ops| {
      FeasiblePrefix(env, ops[..|ops| - 1], n);
      assert ops[..|ops| - 1][..n] == ops[..n];
    } else {
      assert ops[..n] == ops;
    }
  }

  lemma Foreseen(env: Env, ops: seq<Op>, i: nat)
    requires Feasible(env, ops) && i < |ops|
    ensures Foretold(env, Run(env, ops[..i]), H.History(env, ops[..i]), ops[i])
  {
    FeasiblePrefix(env, ops, i + 1);
    assert ops[..i + 1][..i] == ops[..i];
    H.RepliesAreTold(env, ops[..i], ops[i]);
  }

  // ---- When a confirmation is accepted ----

  /** The customer sent the document on this link within 48 hours; the code presented was the last issued for the
      link, within 10 minutes, and is unspent; the document waits for its signature, and its contractor accepts. */
  predicate Authorised(env: Env, s: State, marks: seq<Mark>, sent: nat, asked: nat, c: Confirmation, now: nat) {
    && SentAt(marks, sent) && now <= marks[sent].at + 48 * 3600 * 1_000_000_000
    && Outstanding(marks, asked) && now <= marks[asked].at + 10 * 60 * 1_000_000_000
    && env.sha(marks[asked].code) == env.sha(c.code)
    && marks[sent].id in s.docs
    && var d := s.docs[marks[sent].id];
       d.status == Sent && marks[sent].actor == d.customerID
       && c.contractorID == d.contractorPhone && c.contractorID != "" && c.accepted
  }

  /** From call `i` to call `j` a sent document keeps its customer, and its status does not fall. */
  lemma StaysSent(env: Env, ops: seq<Op>, i: nat, j: nat, id: string)
    requires Feasible(env, ops) && i < j <= |ops|
    requires var t := Apply(env, Run(env, ops[..i]), ops[i]); id in t.docs && t.docs[id].status != Status.Draft
    ensures id in Run(env, ops[..j]).docs
    ensures var d, f := Apply(env, Run(env, ops[..i]), ops[i]).docs[id], Run(env, ops[..j]).docs[id];
            d.customerID == f.customerID && Rank(d.status) <= Rank(f.status)
  {
    var upTo := ops[..i + 1];
    assert upTo == ops[..i] + [ops[i]] && ops[..j] == upTo + ops[i + 1..j];
    RunsAppend(env, ops[..i], ops[i]);
    FeasiblePrefix(env, ops, j);
    ContentFrozen(env, upTo, ops[i + 1..j], id);
  }

  /** Whoever sent a document is its customer still. */
  lemma {:induction false} SenderIsCustomer(env: Env, ops: seq<Op>, token: string, i: nat)
    requires Feasible(env, ops) && SentAt(History(env, ops, token), i)
    ensures var m := History(env, ops, token)[i];
            m.id in Run(env, ops).docs && m.actor == Run(env, ops).docs[m.id].customerID
  {
    HistoryAt(env, ops, token, i);
    Foreseen(env, ops, i);
    StaysSent(env, ops, i, |ops|, ops[i].id);
    assert ops[..|ops|] == ops;
  }

  /** After any run a confirmation succeeds exactly when the history of its link authorises it. */
  lemma {:induction false} ConfirmedIffAuthorised(env: Env, ops: seq<Op>, c: Confirmation, agreedID: string,
                                                  signedID: string, now: nat)
    requires Feasible(env, ops)
    ensures ConfirmPEP(env, Run(env, ops), c, agreedID, signedID, now).result.Ok? <==>
            exists sent: nat, asked: nat ::
              Authorised(env, Run(env, ops), History(env, ops, c.token), sent, asked, c, now)
  {
    var s, marks := Run(env, ops), History(env, ops, c.token);
    Told(env, ops, c.token);
    if OtpAccepted(env, s, c, now) {
      var sent: nat :| SentAt(marks, sent);
      var asked: nat :| Outstanding(marks, asked);
      SenderIsCustomer(env, ops, c.token, sent);
      assert ConfirmPEP(env, s, c, agreedID, signedID, now).result.Ok? ==>
        Authorised(env, s, marks, sent, asked, c, now);
    }
  }

  /** A link goes on leading to the document it was sent for. */
  lemma LinkStays(env: Env, ops: seq<Op>, token: string, i: nat, j: nat)
    requires Feasible(env, ops) && i <= j <= |ops| && token in Run(env, ops[..i]).links
    ensures token in Run(env, ops[..j]).links && Run(env, ops[..j]).links[token] == Run(env, ops[..i]).links[token]
  {
    FeasiblePrefix(env, ops, i);
    FeasiblePrefix(env, ops, j);
    Told(env, ops[..i], token);
    Told(env, ops[..j], token);
    if i < j {
      HistoryAt(env, ops[..j], token, i);
      assert ops[..j][..i] == ops[..i];
      var k: nat :| SentAt(History(env, ops[..i], token), k);
      assert SentAt(History(env, ops[..j], token), k);
    }
  }

  /** A successful confirmation finds its document sent and leaves it signed. */
  lemma ConfirmMoves(env: Env, s: State, past: H.Past, op: Op, token: string)
    requires MarkOf(env, past, op, token).Confirmed? && Foretold(env, s, past, op)
    ensures token in s.links
    ensures var id, t := s.links[token].documentID, Apply(env, s, op);
            id in s.docs && s.docs[id].status == Sent && id in t.docs && t.docs[id].status == PepSigned
  {
  }

  /** A link signs at most once, however many codes are asked for. */
  lemma LinkSignsOnce(env: Env, ops: seq<Op>, token: string, i: nat, j: nat)
    requires Feasible(env, ops) && i < j < |ops| && History(env, ops, token)[i].Confirmed?
    ensures !History(env, ops, token)[j].Confirmed?
  {
    HistoryAt(env, ops, token, i);
    HistoryAt(env, ops, token, j);
    Foreseen(env, ops, i);
    ConfirmMoves(env, Run(env, ops[..i]), H.History(env, ops[..i]), ops[i], token);
    StaysSent(env, ops, i, j, Run(env, ops[..i]).links[token].documentID);
    LinkStays(env, ops, token, i, j);
    if History(env, ops, token)[j].Confirmed? {
      Foreseen(env, ops, j);
      ConfirmMoves(env, Run(env, ops[..j]), H.History(env, ops[..j]), ops[j], token);
    }
  }
}
