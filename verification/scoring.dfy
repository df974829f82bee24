/**
 * The backend's bid score: alpha * price + beta / (t + 1) + gamma * weight,
 * where t is the time in milliseconds since the product's start, clamped at
 * zero, and the sum is rounded to four decimals.
 */
module Scoring {
  import opened Common

  /** Milliseconds since startTime as the score sees them: never negative. */
  function Elapsed(now: int, startTime: int): (t: real)
    ensures t >= 0.0
    ensures now >= startTime ==> t == (now - startTime) as real
    ensures now <= startTime ==> t == 0.0
  {
    var t := (now - startTime) as real;
    if t < 0.0 then 0.0 else t
  }

  /** The reaction-time term of the score. */
  function TimeTerm(beta: real, t: real): real
    requires t >= 0.0
  {
    beta / (t + 1.0)
  }

  /** The score before rounding. */
  function ExactScore(price: real, startTime: int, weight: real, alpha: real, beta: real, gamma: real, now: int): real
  {
    alpha * price + TimeTerm(beta, Elapsed(now, startTime)) + gamma * weight
  }

  /** math.Round(x * 10000) / 10000. */
  function Round4(x: real): (r: real)
    ensures -0.00005 <= r - x <= 0.00005
    ensures (r * 10000.0).Floor as real == r * 10000.0
  {
    RoundHalfAway(x * 10000.0) as real / 10000.0
  }

  /** CalculateScore: the exact score to four decimals; the clock reading is a parameter. */
  function CalculateScore(price: real, startTime: int, weight: real, alpha: real, beta: real, gamma: real, now: int): (r: real)
    ensures -0.00005 <= r - ExactScore(price, startTime, weight, alpha, beta, gamma, now) <= 0.00005
    ensures (r * 10000.0).Floor as real == r * 10000.0
  {
    Round4(ExactScore(price, startTime, weight, alpha, beta, gamma, now))
  }

  /** With beta >= 0 the time term lies in [0, beta], is positive when beta is, and equals beta at t = 0. */
  lemma TimeTermBounds(beta: real, t: real)
    requires beta >= 0.0 && t >= 0.0
    ensures 0.0 <= TimeTerm(beta, t) <= beta
    ensures beta > 0.0 ==> TimeTerm(beta, t) > 0.0
    ensures t == 0.0 ==> TimeTerm(beta, t) == beta
  {
    assert TimeTerm(beta, t) * (t + 1.0) == beta;
  }

  /** A later bid never gets a larger time term. */
  lemma TimeTermNonIncreasing(beta: real, t1: real, t2: real)
    requires beta >= 0.0 && 0.0 <= t1 <= t2
    ensures TimeTerm(beta, t2) <= TimeTerm(beta, t1)
  {
    var a, b := TimeTerm(beta, t1), TimeTerm(beta, t2);
    assert a * (t1 + 1.0) == beta;
    assert b * (t2 + 1.0) == beta;
    assert b * (t1 + 1.0) <= b * (t2 + 1.0);
  }

  /** Two bids with the same price and weight: the earlier one scores at least as high. */
  lemma EarlierBidScoresAtLeastAsHigh(price: real, startTime: int, weight: real, alpha: real, beta: real, gamma: real, now1: int, now2: int)
    requires beta >= 0.0 && now1 <= now2
    ensures ExactScore(price, startTime, weight, alpha, beta, gamma, now2) <= ExactScore(price, startTime, weight, alpha, beta, gamma, now1)
  {
    TimeTermNonIncreasing(beta, Elapsed(now1, startTime), Elapsed(now2, startTime));
  }
}
