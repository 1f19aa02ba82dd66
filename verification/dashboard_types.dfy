/**
 The record shapes the Soule Smart dashboard works on: one revenue snapshot
 per reporting period, one funnel snapshot per acquisition channel, and the
 derived KPI cards. Amounts and counts are `real`: the dashboard divides them,
 and IEEE-754 rounding is abstracted away.
 */
module DashboardTypes {

  /** An optional value, for the KPI delta that only some cards carry. */
  datatype Option<+T> = None | Some(value: T) {

    /** The held value, or `default` when there is none (JavaScript's `??`). */
    function GetOr(default: T): (r: T)
      ensures Some? ==> r == value
      ensures None? ==> r == default
    {
      match this
      case Some(v) => v
      case None => default
    }
  }

  /** One reporting period: its label ("2025-09"), total recurring revenue,
      revenue newly added, and revenue churned (stored as a negative figure). */
  datatype RevenuePoint = RevenuePoint(date: string, mrr: real, newMrr: real, churnMrr: real)

  /** One acquisition channel's funnel: leads, signups and attributed revenue. */
  datatype ChannelPoint = ChannelPoint(channel: string, leads: real, signups: real, revenue: real)

  /** How a KPI card renders its headline value. The dashboard turns
      `Currency` into a whole-euro amount and `Percent` into a fixed-point
      number with `decimals` digits followed by "%". */
  datatype Display = Currency(amount: real) | Percent(amount: real, decimals: nat)

  /** A headline metric card titled `caption`; `delta` is the percentage
      change against the previous period, present only on cards that show one. */
  datatype Kpi = Kpi(id: string, caption: string, value: Display, delta: Option<real>)

  function Abs(x: real): (r: real)
    ensures r >= 0.0
    ensures r == x || r == -x
  {
    if x < 0.0 then -x else x
  }

  function Min(a: int, b: int): (r: int)
    ensures r <= a && r <= b
    ensures r == a || r == b
  {
    if a <= b then a else b
  }

  function Max(a: int, b: int): (r: int)
    ensures r >= a && r >= b
    ensures r == a || r == b
  {
    if a >= b then a else b
  }
}
