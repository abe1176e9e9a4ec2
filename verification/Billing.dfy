/** The plan catalogue. A limit of zero means unlimited. */
module Billing {
  datatype Plan = Plan(code: string, monthlyPriceKopecks: int, documentsPerMonth: nat)

  const PLANS: seq<Plan> := [Plan("start", 99000, 50), Plan("business", 399000, 500), Plan("enterprise", 0, 0)]

  function LimitIn(plans: seq<Plan>, code: string): nat {
    if plans == [] then 0 else if plans[0].code == code then plans[0].documentsPerMonth else LimitIn(plans[1..], code)
  }

  /** Zero for an unlimited plan and for an unknown code alike. */
  function DocumentLimit(code: string): nat { LimitIn(PLANS, code) }

  predicate KnownPlan(code: string) { DocumentLimit(code) != 0 || code == "enterprise" }

  predicate ValidStatus(status: string) { status in {"active", "past_due", "cancelled", "trial"} }

  method FindLimit(code: string) returns (limit: nat)
    ensures limit == DocumentLimit(code)
  {
    for i := 0 to |PLANS|
      invariant DocumentLimit(code) == LimitIn(PLANS[i..], code)
    {
      if PLANS[i].code == code {
        return PLANS[i].documentsPerMonth;
      }
      assert PLANS[i..][1..] == PLANS[i + 1..];
    }
    return 0;
  }

  /** The known plans are exactly the catalogue's, with limits 50, 500 and none. */
  lemma KnownPlans(code: string)
    ensures KnownPlan(code) <==> code in {"start", "business", "enterprise"}
    ensures code == "start" ==> DocumentLimit(code) == 50
    ensures code == "business" ==> DocumentLimit(code) == 500
    ensures code == "enterprise" ==> DocumentLimit(code) == 0
  {
    assert PLANS[1..] == [PLANS[1], PLANS[2]] && PLANS[1..][1..] == [PLANS[2]] && PLANS[1..][1..][1..] == [];
    assert LimitIn([], code) == 0;
    assert LimitIn([PLANS[2]], code) == 0;
    assert LimitIn(PLANS[1..], code) == if code == "business" then 500 else LimitIn(PLANS[1..][1..], code);
    assert LimitIn(PLANS, code) == if code == "start" then 50 else LimitIn(PLANS[1..], code);
  }

  /** The limit of any code: 50, 500, or none. */
  lemma LimitsOf(code: string)
    ensures DocumentLimit(code) == if code == "start" then 50 else if code == "business" then 500 else 0
  {
    KnownPlans(code);
  }
}
