/** One-time code validation under concurrency. A validation is two separate statements: delete the row if the
    digest matches, otherwise count a failure; other callers may run between the two. */
module Otp {
  import opened Tables

  /** One subject and purpose. `busy[c]` says that caller `c` has failed to match and not yet counted it. The last
      three fields count, since the challenge was last saved: validations that returned true, wrong digests
      compared while the challenge was live, and failures whose count was lost to a crash or a failed statement. */
  datatype Protocol = Protocol(db: Tables, now: nat, busy: seq<bool>, matched: nat, wrong: nat, lost: nat)

  datatype Step =
    | Wait(duration: nat)
    | Save(digest: string, expiresAt: nat)
    | Check(caller: nat, digest: string)
    | Count(caller: nat)
    | Lose(caller: nat)
    | Cleanup

  predicate IsLive(key: OtpKey, p: Protocol) { key in p.db.otp && Live(p.db.otp[key], p.now) }

  predicate Waiting(p: Protocol, caller: nat) { caller < |p.busy| && p.busy[caller] }

  function Next(key: OtpKey, p: Protocol, s: Step): Protocol {
    match s
    case Wait(duration) => p.(now := p.now + duration)
    case Save(digest, expiresAt) => p.(db := SaveOTP(p.db, key, digest, expiresAt), matched := 0, wrong := 0, lost := 0)
    case Check(c, digest) =>
      if c >= |p.busy| || p.busy[c] then p
      else if OtpMatches(p.db, key, digest, p.now) then p.(db := ConsumeOTP(p.db, key), matched := p.matched + 1)
      else p.(busy := p.busy[c := true], wrong := p.wrong + if IsLive(key, p) then 1 else 0)
    case Count(c) =>
      if Waiting(p, c) then p.(db := CountFailure(p.db, key, p.now), busy := p.busy[c := false]) else p
    case Lose(c) =>
      if Waiting(p, c) then p.(busy := p.busy[c := false], lost := p.lost + 1) else p
    case Cleanup => p.(db := CleanupExpired(p.db, p.now))
  }

  function Run(key: OtpKey, callers: nat, steps: seq<Step>): (p: Protocol)
    ensures |p.busy| == callers
  {
    if steps == [] then Protocol(EMPTY, 0, seq(callers, _ => false), 0, 0, 0)
    else Next(key, Run(key, callers, steps[..|steps| - 1]), steps[|steps| - 1])
  }

  function Busy(busy: seq<bool>): (n: nat)
    ensures n <= |busy|
  {
    if busy == [] then 0 else Busy(busy[..|busy| - 1]) + if busy[|busy| - 1] then 1 else 0
  }

  lemma {:induction false} BusyUpdate(busy: seq<bool>, c: nat, b: bool)
    requires c < |busy| && busy[c] != b
    ensures Busy(busy[c := b]) == Busy(busy) + if b then 1 else -1
  {
    var n := |busy| - 1;
    if c < n {
      assert busy[c := b][..n] == busy[..n][c := b];
      BusyUpdate(busy[..n], c, b);
    } else {
      assert busy[c := b][..n] == busy[..n];
    }
  }

  lemma {:induction false} BusyFull(busy: seq<bool>, c: nat)
    requires c < |busy| && !busy[c]
    ensures Busy(busy) < |busy|
  {
    var n := |busy| - 1;
    if c < n { BusyFull(busy[..n], c); }
  }

  ghost predicate Inv(key: OtpKey, p: Protocol) {
    && p.matched <= 1 && (p.matched == 1 ==> key !in p.db.otp)
    && p.wrong <= MAX_ATTEMPTS - 1 + |p.busy| + p.lost
    && (key in p.db.otp && p.db.otp[key].attempts >= MAX_ATTEMPTS ==> !Live(p.db.otp[key], p.now))
    && (IsLive(key, p) ==> p.wrong <= p.db.otp[key].attempts + Busy(p.busy) + p.lost)
  }

  lemma NextKeeps(key: OtpKey, p: Protocol, s: Step)
    requires Inv(key, p)
    ensures Inv(key, Next(key, p, s))
  {
    if s.Check? && s.caller < |p.busy| && !p.busy[s.caller] {
      BusyFull(p.busy, s.caller);
      BusyUpdate(p.busy, s.caller, true);
    } else if (s.Count? || s.Lose?) && Waiting(p, s.caller) {
      BusyUpdate(p.busy, s.caller, false);
    }
  }

  lemma {:induction false} RunsKeep(key: OtpKey, callers: nat, steps: seq<Step>)
    ensures Inv(key, Run(key, callers, steps))
  {
    if steps != [] {
      RunsKeep(key, callers, steps[..|steps| - 1]);
      NextKeeps(key, Run(key, callers, steps[..|steps| - 1]), steps[|steps| - 1]);
    }
  }

  /** Between two saves, under every interleaving: at most one validation returns true, and at most four wrong
      digests and one more for each caller are compared with the live challenge, not counting lost failures. Once
      five have been compared and every caller has counted its own, the challenge is dead. */
  lemma AttemptBound(key: OtpKey, callers: nat, steps: seq<Step>)
    ensures var p := Run(key, callers, steps);
            && p.matched <= 1 && p.wrong <= 4 + callers + p.lost
            && (p.wrong >= 5 && p.lost == 0 && (forall c | 0 <= c < callers :: !p.busy[c]) ==> !IsLive(key, p))
  {
    RunsKeep(key, callers, steps);
    var busy := Run(key, callers, steps).busy;
    if forall c | 0 <= c < callers :: !busy[c] { NoneBusy(busy); }
  }

  lemma {:induction false} NoneBusy(busy: seq<bool>)
    requires forall c | 0 <= c < |busy| :: !busy[c]
    ensures Busy(busy) == 0
  {
    if busy != [] { NoneBusy(busy[..|busy| - 1]); }
  }

  // ---- The bound is attained ----

  lemma RunAppend(key: OtpKey, callers: nat, steps: seq<Step>, s: Step)
    ensures Run(key, callers, steps + [s]) == Next(key, Run(key, callers, steps), s)
  {
  }

  /** Caller 0 alone: `n` counted failures. */
  lemma {:induction false} InTurn(key: OtpKey, callers: nat, n: nat) returns (steps: seq<Step>)
    requires callers > 0 && n < MAX_ATTEMPTS
    ensures var p := Run(key, callers, steps);
            && p.busy == seq(callers, _ => false) && p.wrong == n && p.lost == 0 && p.now == 0
            && key in p.db.otp && p.db.otp[key] == OtpRow("right", n, 1)
  {
    if n == 0 {
      steps := [Save("right", 1)];
      assert steps[..0] == [];
    } else {
      steps := InTurn(key, callers, n - 1);
      RunAppend(key, callers, steps, Check(0, "wrong"));
      RunAppend(key, callers, steps + [Check(0, "wrong")], Count(0));
      steps := steps + [Check(0, "wrong")] + [Count(0)];
    }
  }

  /** Then the first `n` callers compare before any of them counts. */
  lemma {:induction false} AtOnce(key: OtpKey, callers: nat, n: nat) returns (steps: seq<Step>)
    requires 0 < callers && n <= callers
    ensures var p := Run(key, callers, steps);
            && p.wrong == 4 + n && p.lost == 0 && p.now == 0
            && (forall c | n <= c < callers :: !p.busy[c])
            && key in p.db.otp && p.db.otp[key] == OtpRow("right", 4, 1)
  {
    if n == 0 {
      steps := InTurn(key, callers, 4);
    } else {
      steps := AtOnce(key, callers, n - 1);
      RunAppend(key, callers, steps, Check(n - 1, "wrong"));
      steps := steps + [Check(n - 1, "wrong")];
    }
  }

  /** For every number of callers some interleaving, with no count lost, reaches the bound. */
  lemma BoundAttained(key: OtpKey, callers: nat) returns (steps: seq<Step>)
    requires callers > 0
    ensures var p := Run(key, callers, steps); p.lost == 0 && p.wrong == 4 + callers
  {
    steps := AtOnce(key, callers, callers);
  }
}
