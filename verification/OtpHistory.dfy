/** When a one-time code is accepted, from the calls made so far alone. */
module OtpHistory {
  import opened Domain
  import opened Tables
  import opened Otp

  function Clock(steps: seq<Step>): nat {
    if steps == [] then 0
    else
      var last := steps[|steps| - 1];
      Clock(steps[..|steps| - 1]) + if last.Wait? then last.duration else 0
  }

  /** The last save. */
  function Saved(steps: seq<Step>): (r: Option<Step>)
    ensures r.Some? ==> r.value.Save?
  {
    if steps == [] then None
    else if steps[|steps| - 1].Save? then Some(steps[|steps| - 1])
    else Saved(steps[..|steps| - 1])
  }

  /** Caller `c` has compared a digest that was not accepted, and has neither counted that nor given up. */
  predicate Owes(callers: nat, steps: seq<Step>, c: nat)
    decreases |steps|, 0
  {
    steps != [] && c < callers &&
    var init, last := steps[..|steps| - 1], steps[|steps| - 1];
    if last.Check? && last.caller == c && !Owes(callers, init, c) then !Right(callers, init, last.digest)
    else if (last.Count? || last.Lose?) && last.caller == c then false
    else Owes(callers, init, c)
  }

  /** A digest has been accepted since the last save. */
  predicate Spent(callers: nat, steps: seq<Step>)
    decreases |steps|, 0
  {
    steps != [] && !steps[|steps| - 1].Save? &&
    var init, last := steps[..|steps| - 1], steps[|steps| - 1];
    || Spent(callers, init)
    || Accepts(callers, init, last)
  }

  /** The step is a check by a caller with nothing owing, of the right digest. */
  predicate Accepts(callers: nat, steps: seq<Step>, s: Step)
    decreases |steps|, 3
  {
    s.Check? && s.caller < callers && !Owes(callers, steps, s.caller) && Right(callers, steps, s.digest)
  }

  /** How many failures have been counted since the last save. */
  function Counted(callers: nat, steps: seq<Step>): nat
    decreases |steps|, 0
  {
    if steps == [] || steps[|steps| - 1].Save? then 0
    else
      var init, last := steps[..|steps| - 1], steps[|steps| - 1];
      Counted(callers, init) + if last.Count? && Owes(callers, init, last.caller) then 1 else 0
  }

  /** The code saved last has not expired, nor been used, nor been guessed at five times. */
  predicate Standing(callers: nat, steps: seq<Step>)
    decreases |steps|, 1
  {
    && Saved(steps).Some? && Clock(steps) < Saved(steps).value.expiresAt
    && !Spent(callers, steps) && Counted(callers, steps) < 5
  }

  /** The digest is that of the standing code. */
  predicate Right(callers: nat, steps: seq<Step>, digest: string)
    decreases |steps|, 2
  {
    Standing(callers, steps) && Saved(steps).value.digest == digest
  }

  /** The protocol is where its history says. */
  predicate Told(key: OtpKey, callers: nat, p: Protocol, steps: seq<Step>) {
    && p.now == Clock(steps) && |p.busy| == callers
    && (forall c | 0 <= c < callers :: p.busy[c] == Owes(callers, steps, c))
    && (IsLive(key, p) <==> Standing(callers, steps))
    && (IsLive(key, p) ==>
          p.db.otp[key] == OtpRow(Saved(steps).value.digest, Counted(callers, steps), Saved(steps).value.expiresAt))
  }

  lemma Last(callers: nat, steps: seq<Step>, s: Step)
    ensures var more := steps + [s];
            && Clock(more) == Clock(steps) + (if s.Wait? then s.duration else 0)
            && Saved(more) == (if s.Save? then Some(s) else Saved(steps))
            && Spent(callers, more) == (!s.Save? && (Spent(callers, steps) || Accepts(callers, steps, s)))
            && Counted(callers, more) ==
                (if s.Save? then 0
                 else Counted(callers, steps) + if s.Count? && Owes(callers, steps, s.caller) then 1 else 0)
  {
    assert (steps + [s])[..|steps|] == steps;
  }

  lemma LastOwes(callers: nat, steps: seq<Step>, s: Step, c: nat)
    requires c < callers
    ensures Owes(callers, steps + [s], c) <==>
              if s.Check? && s.caller == c && !Owes(callers, steps, c) then !Right(callers, steps, s.digest)
              else if (s.Count? || s.Lose?) && s.caller == c then false
              else Owes(callers, steps, c)
  {
    assert (steps + [s])[..|steps|] == steps;
  }

  lemma RightIsMatch(key: OtpKey, callers: nat, p: Protocol, steps: seq<Step>, digest: string)
    requires Told(key, callers, p, steps)
    ensures Right(callers, steps, digest) <==> OtpMatches(p.db, key, digest, p.now)
  {
  }

  lemma NextTold(key: OtpKey, callers: nat, p: Protocol, steps: seq<Step>, s: Step)
    requires Told(key, callers, p, steps)
    ensures Told(key, callers, Next(key, p, s), steps + [s])
  {
    var q := Next(key, p, s);
    Last(callers, steps, s);
    if s.Check? { RightIsMatch(key, callers, p, steps, s.digest); }
    forall c | 0 <= c < callers ensures q.busy[c] == Owes(callers, steps + [s], c) { LastOwes(callers, steps, s, c); }
  }

  lemma {:induction false} RunsTold(key: OtpKey, callers: nat, steps: seq<Step>)
    ensures Told(key, callers, Run(key, callers, steps), steps)
  {
    if steps != [] {
      var init := steps[..|steps| - 1];
      RunsTold(key, callers, init);
      NextTold(key, callers, Run(key, callers, init), init, steps[|steps| - 1]);
      assert init + [steps[|steps| - 1]] == steps;
    }
  }

  /** Under every interleaving, a check by a caller with nothing owing succeeds exactly when its digest is the one saved
      last, before the expiry saved with it, with no success since and fewer than five failures counted since. */
  lemma {:induction false} AcceptedIffRight(key: OtpKey, callers: nat, steps: seq<Step>, c: nat, digest: string)
    requires c < callers && !Run(key, callers, steps).busy[c]
    ensures var p, q := Run(key, callers, steps), Next(key, Run(key, callers, steps), Check(c, digest));
            (q.matched == p.matched + 1 && key !in q.db.otp && !q.busy[c] <==> Right(callers, steps, digest))
            && (q.busy[c] <==> !Right(callers, steps, digest))
  {
    RunsTold(key, callers, steps);
    RightIsMatch(key, callers, Run(key, callers, steps), steps, digest);
  }

  /** So does a validation made in one go on what any such run leaves, and it counts a failure exactly when it meets a
      standing code with another digest. */
  lemma {:induction false} ValidationIffRight(key: OtpKey, callers: nat, steps: seq<Step>, digest: string)
    ensures var p := Run(key, callers, steps);
            var r := ValidateOTP(p.db, key, digest, p.now);
            && (r.1 <==> Right(callers, steps, digest))
            && (r.1 ==> key !in r.0.otp)
            && (!r.1 && Standing(callers, steps) ==>
                  key in r.0.otp && r.0.otp[key].attempts == Counted(callers, steps) + 1
                  && (Live(r.0.otp[key], p.now) <==> Counted(callers, steps) < 4))
            && (!Standing(callers, steps) ==> !r.1 && r.0 == p.db)
  {
    RunsTold(key, callers, steps);
    RightIsMatch(key, callers, Run(key, callers, steps), steps, digest);
  }
}
