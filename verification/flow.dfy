/**
 * How the two backend services meet in Redis: the bidding service reads the
 * config hash the product service wrote.
 */
module AuctionFlow {
  import opened Common
  import opened GoText
  import Redis
  import Product
  import Bidding
  import Scoring

  /**
   * Every field the bidding service reads from a freshly written config
   * comes back as the product had it: integers exactly, coefficients to six
   * decimals, and no currentHighestPrice yet (read as 0). Fields written
   * earlier under the same key are overwritten.
   */
  lemma ConfigReadsBack(previous: Redis.Hash, p: Product.Product)
    requires MinInt64 <= p.startTime <= MaxInt64 && MinInt64 <= p.k <= MaxInt64
    ensures var c := previous + Product.ConfigRecord(p);
            && Bidding.GetInt64(c, "startTime", 0) == p.startTime
            && Bidding.GetFloat(c, "alpha", 1.0) == Round6(p.alpha)
            && Bidding.GetFloat(c, "beta", 0.5) == Round6(p.beta)
            && Bidding.GetFloat(c, "gamma", 0.3) == Round6(p.gamma)
            && Bidding.RankingKAsWritten(c) == p.k
            && Bidding.StoredStatus(c) == p.status
  {
    var h := Product.ConfigRecord(p);
    var c := previous + h;
    assert "startTime" in h && "k" in h && "alpha" in h && "beta" in h && "gamma" in h && "status" in h;
    Bidding.GetInt64ReadsBack(c, "startTime", p.startTime, 0);
    Bidding.GetInt64ReadsBack(c, "k", p.k, 5);
    Bidding.GetFloatReadsBack(c, "alpha", p.alpha, 1.0);
    Bidding.GetFloatReadsBack(c, "beta", p.beta, 0.5);
    Bidding.GetFloatReadsBack(c, "gamma", p.gamma, 0.3);
  }

  /**
   * A product created with a zero coefficient is scored with that
   * coefficient's default, the same value the bidding service falls back to
   * for a missing field; a non-zero coefficient reads back to six decimals.
   */
  lemma CreatedCoefficientsReadBack(previous: Redis.Hash, p: Product.Product, nanos: int)
    ensures var c := previous + Product.ConfigRecord(Product.GormDefaults(Product.WithDefaults(p, nanos)));
            && Bidding.GetFloat(c, "alpha", 1.0) == (if p.alpha == 0.0 then 1.0 else Round6(p.alpha))
            && Bidding.GetFloat(c, "beta", 0.5) == (if p.beta == 0.0 then 0.5 else Round6(p.beta))
            && Bidding.GetFloat(c, "gamma", 0.3) == (if p.gamma == 0.0 then 0.3 else Round6(p.gamma))
  {
    var q := Product.GormDefaults(Product.WithDefaults(p, nanos));
    var c := previous + Product.ConfigRecord(q);
    assert "alpha" in Product.ConfigRecord(q) && "beta" in Product.ConfigRecord(q) && "gamma" in Product.ConfigRecord(q);
    Bidding.GetFloatReadsBack(c, "alpha", q.alpha, 1.0);
    Bidding.GetFloatReadsBack(c, "beta", q.beta, 0.5);
    Bidding.GetFloatReadsBack(c, "gamma", q.gamma, 0.3);
    assert RoundHalfAway(1.0 * 1000000.0) == 1000000;
    assert RoundHalfAway(0.5 * 1000000.0) == 500000;
    assert RoundHalfAway(0.3 * 1000000.0) == 300000;
  }

  /**
   * A bid on a product just created: it is refused only for being early or
   * by the script, and an accepted bid is scored with the product's own
   * start time and its coefficients to six decimals.
   */
  lemma BidOnCreatedProduct(previous: Redis.Hash, p: Product.Product, price: real, weight: real,
                            now: int, scoreNow: int, script: Bidding.ScriptReply)
    requires MinInt64 <= p.startTime <= MaxInt64 && MinInt64 <= p.k <= MaxInt64
    ensures var r := Bidding.PlaceBidOutcome(previous + Product.ConfigRecord(p), price, weight, now, scoreNow, script);
            && (r.Err? ==> r.error != Bidding.ProductNotConfigured)
            && (now < p.startTime ==> r == Bidding.Err(Bidding.AuctionNotStarted))
            && (r.Ok? ==> r.value == Scoring.CalculateScore(price, p.startTime, weight, Round6(p.alpha), Round6(p.beta), Round6(p.gamma), scoreNow))
  {
    var c := previous + Product.ConfigRecord(p);
    assert "status" in c;
    ConfigReadsBack(previous, p);
  }

  /** GetResults opens exactly when the status last written is "ended". */
  lemma ResultsFollowStatusUpdate(config: Redis.Hash, status: string)
    ensures (Bidding.StoredStatus(config + map["status" := status]) == "ended") <==> status == "ended"
  {
  }
}
