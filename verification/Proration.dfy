/** The refund credit of a plan change: the unused part of the current billing period. */
module Proration {
  import opened Common

  function MonthlyAmount(plan: string): nat {
    match plan
    case "starter" => 999
    case "growth" => 2999
    case "pro" => 9999
    case _ => 0
  }

  /** The monthly prices of the plans. */
  lemma PlanPrices(plan: string)
    ensures MonthlyAmount("starter") == 999 && MonthlyAmount("growth") == 2999 && MonthlyAmount("pro") == 9999
    ensures plan !in {"starter", "growth", "pro"} ==> MonthlyAmount(plan) == 0
  {
  }

  /** `Math.round(n / d)` on exact quotients: the nearest integer, halves rounded up. */
  function RoundQuotient(n: int, d: int): int
    requires d > 0
  {
    (2 * n + d) / (2 * d)
  }

  function ProratedCredit(plan: string, start: Option<int>, end: Option<int>, now: int): (credit: nat)
    ensures start.None? || end.None? || now >= end.value ==> credit == 0
  {
    if start.None? || end.None? then 0
    else
      var total := end.value - start.value;
      if total <= 0 || now >= end.value then 0
      else Max(0, RoundQuotient(MonthlyAmount(plan) * (end.value - now), total))
  }

  /** The credit is `amount * remaining / total`, rounded to the nearest integer. */
  lemma CreditBrackets(plan: string, start: int, end: int, now: int)
    requires start < end && now < end
    ensures var c, m, t := ProratedCredit(plan, Some(start), Some(end), now), MonthlyAmount(plan), end - start;
            2 * t * c <= 2 * (m * (end - now)) + t < 2 * t * (c + 1)
  {
    var m, t, left := MonthlyAmount(plan), end - start, end - now;
    var c := RoundQuotient(m * left, t);
    DivBrackets(2 * (m * left) + t, 2 * t);
    if c < 0 { MulLe(2 * t, c + 1, 0); }
  }

  lemma DivBrackets(n: int, d: int)
    requires d > 0
    ensures d * (n / d) <= n < d * (n / d + 1)
  {
  }

  /** From the start of the period on, the credit is at most one month. */
  lemma CreditAtMostOneMonth(plan: string, start: int, end: int, now: int)
    requires start < end && now < end
    ensures ProratedCredit(plan, Some(start), Some(end), now) <= MonthlyAmount(plan)
       <==> 2 * MonthlyAmount(plan) * (start - now) < end - start
  {
    var c, m, t := ProratedCredit(plan, Some(start), Some(end), now), MonthlyAmount(plan), end - start;
    CreditBrackets(plan, start, end, now);
    var over := 2 * m * (start - now);
    assert 2 * (m * (end - now)) == over + 2 * m * t;
    if c <= m {
      MulLe(2 * t, c + 1, m + 1);
    } else {
      MulLe(2 * t, m + 1, c);
    }
  }

  /** Before the period starts the credit can exceed a month: here it is two. */
  lemma CreditCanExceedOneMonth()
    ensures ProratedCredit("pro", Some(100), Some(200), 0) == 2 * MonthlyAmount("pro")
  {
    assert RoundQuotient(9999 * 200, 100) == 19998;
  }

  lemma MulLe(k: int, a: int, b: int)
    requires k >= 0 && a <= b
    ensures k * a <= k * b
  {
  }

  /** Waiting never raises the credit. */
  lemma CreditNeverGrows(plan: string, start: Option<int>, end: Option<int>, now: int, later: int)
    requires now <= later
    ensures ProratedCredit(plan, start, end, later) <= ProratedCredit(plan, start, end, now)
  {
    if start.Some? && end.Some? && start.value < end.value && later < end.value {
      CreditBrackets(plan, start.value, end.value, now);
      CreditBrackets(plan, start.value, end.value, later);
      var m, t := MonthlyAmount(plan), end.value - start.value;
      var c, d := ProratedCredit(plan, start, end, now), ProratedCredit(plan, start, end, later);
      MulLe(m, end.value - later, end.value - now);
      if d > c {
        MulLe(2 * t, c + 1, d);
      }
    }
  }
}
