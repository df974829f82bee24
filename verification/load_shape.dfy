/**
 * The demo load test's user schedule and its shared cache of each
 * product's highest price. Run times are seconds as reals; Python's float
 * rounding is not modelled.
 */
module LocustDemo {
  import opened Common

  const MaxUsers: int := 1400
  const RampTime: real := 180.0
  const HoldTime: real := 60.0
  const SpawnRate: int := 50

  /** Python's int() of a float: truncation toward zero. */
  function Trunc(x: real): (n: int)
    ensures x >= 0.0 ==> n == x.Floor
    ensures x < 0.0 ==> n <= 0
  {
    if x >= 0.0 then x.Floor else -((-x).Floor)
  }

  /**
   * SmoothRampShape.tick: None once the ramp and the hold are over;
   * otherwise the user count, rising linearly over the ramp and then held
   * at 1400, never below 1, and the spawn rate 50.
   */
  function Tick(runTime: real): (r: Option<(int, int)>)
    ensures r.None? <==> runTime > RampTime + HoldTime
  {
    if runTime > RampTime + HoldTime then None
    else
      var users := if runTime <= RampTime then Trunc(MaxUsers as real * (runTime / RampTime)) else MaxUsers;
      Some((MaxInt(users, 1), SpawnRate))
  }

  /**
   * While the shape runs the user count is between 1 and 1400: the floor
   * of 1400 * t / 180 on the ramp (at least 1), 1400 after it; the spawn
   * rate is always 50.
   */
  lemma TickBounds(runTime: real)
    requires runTime <= RampTime + HoldTime
    ensures Tick(runTime).Some?
    ensures var (users, rate) := Tick(runTime).value;
            && 1 <= users <= MaxUsers && rate == SpawnRate
            && (0.0 <= runTime <= RampTime ==> users == MaxInt((MaxUsers as real * runTime / RampTime).Floor, 1))
            && (runTime > RampTime ==> users == MaxUsers)
  {
    if runTime <= RampTime {
      var x := MaxUsers as real * (runTime / RampTime);
      assert x <= MaxUsers as real;
      assert x.Floor <= MaxUsers;
    }
  }

  /** Floor never goes down. */
  lemma FloorMonotone(x: real, y: real)
    requires x <= y
    ensures x.Floor <= y.Floor
  {
  }

  /** The user count never falls while the shape runs. */
  lemma TickMonotone(a: real, b: real)
    requires 0.0 <= a <= b <= RampTime + HoldTime
    ensures Tick(a).Some? && Tick(b).Some? && Tick(a).value.0 <= Tick(b).value.0
  {
    TickBounds(a);
    TickBounds(b);
    if b <= RampTime {
      FloorMonotone(MaxUsers as real * (a / RampTime), MaxUsers as real * (b / RampTime));
    }
  }

  /** The module-level current_highest_prices dictionary, with its two accessors. */
  class PriceCache {
    var prices: map<string, real>

    constructor()
      ensures prices == map[]
    {
      prices := map[];
    }

    /** get_current_highest_price: the cached price, or 1000.0 for a product with none. */
    function Get(productId: string): (p: real)
      reads this
      ensures productId in prices ==> p == prices[productId]
      ensures productId !in prices ==> p == 1000.0
    {
      if productId in prices then prices[productId] else 1000.0
    }

    /**
     * update_highest_price: store the new price when it beats the cached
     * one, a missing entry counting as 0. A stored price never falls, and
     * no other product's entry changes.
     */
    method Update(productId: string, newPrice: real)
      modifies this
      ensures var stored := if productId in old(prices) then old(prices)[productId] else 0.0;
              prices == if newPrice > stored then old(prices)[productId := newPrice] else old(prices)
      ensures productId in old(prices) ==> productId in prices && prices[productId] == Max(old(prices)[productId], newPrice)
      ensures forall other :: other != productId ==> Get(other) == old(Get(other))
    {
      var stored := if productId in prices then prices[productId] else 0.0;
      if newPrice > stored {
        prices := prices[productId := newPrice];
      }
    }
  }

  /**
   * The two defaults differ: for a product with no entry, get says 1000.0,
   * and an update with a lower positive price is stored and lowers what get
   * says.
   */
  method FirstUpdateCanLower() returns (before: real, after: real)
    ensures before == 1000.0 && after == 500.0
  {
    var cache := new PriceCache();
    before := cache.Get("prod_1");
    cache.Update("prod_1", 500.0);
    after := cache.Get("prod_1");
  }
}
