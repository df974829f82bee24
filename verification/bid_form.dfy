/**
 * The bid form: the typed price is checked before the bid is handed on,
 * the outcome is shown as a message, and the form is disabled while the
 * product is not active or a bid is in flight.
 */
module BidForm {
  import opened Common
  import MockProducts

  /** The two checks handleSubmit makes, in order. */
  datatype Rejection = InvalidAmount | BelowBasePrice

  /** The message line: an error text, or the success note for the price bid. */
  datatype Message = Failure(text: string) | Success(price: real)

  /** How the awaited onBidSubmit ended: it resolved, or it threw (with the Error's message when it was an Error). */
  datatype Settled = Resolved | Threw(errorMessage: Option<string>)

  function RejectionText(r: Rejection): string
  {
    match r
    case InvalidAmount => "請輸入有效的出價金額"
    case BelowBasePrice => "出價需高於起標價"
  }

  /**
   * handleSubmit's checks on parseFloat(price), None standing for NaN: a
   * missing or non-positive amount first, then one below the base price;
   * the base price itself is allowed.
   */
  function Validate(parsed: Option<real>, basePrice: real): (r: Option<Rejection>)
    ensures r == Some(InvalidAmount) <==> parsed.None? || parsed.value <= 0.0
    ensures r == Some(BelowBasePrice) <==> parsed.Some? && 0.0 < parsed.value < basePrice
    ensures r.None? <==> parsed.Some? && parsed.value > 0.0 && parsed.value >= basePrice
  {
    if parsed.None? || parsed.value <= 0.0 then Some(InvalidAmount)
    else if parsed.value < basePrice then Some(BelowBasePrice)
    else None
  }

  /**
   * Every price the form lets through for an active product is one the
   * mock service accepts, and every price the service refuses as below
   * the base price is stopped by the form first.
   */
  lemma FormPassesOnlyAcceptedPrices(products: seq<MockProducts.Product>, productId: string, x: real)
    requires MockProducts.FindIndex(products, productId).Some?
    requires products[MockProducts.FindIndex(products, productId).value].status == Active
    ensures var base := products[MockProducts.FindIndex(products, productId).value].basePrice;
            && (Validate(Some(x), base).None? ==> MockProducts.CheckBid(products, productId, x) == MockProducts.Accepted)
            && (MockProducts.CheckBid(products, productId, x) == MockProducts.Refused(MockProducts.BelowBasePrice) ==>
                  Validate(Some(x), base).Some?)
  {
  }

  class Form {
    var price: string
    var loading: bool
    var message: Option<Message>

    constructor()
      ensures price == "" && !loading && message.None?
    {
      price, loading, message := "", false, None;
    }

    /** isDisabled: the product is not active, or a bid is in flight. */
    function Disabled(status: ProductStatus): (d: bool)
      reads this
      ensures !d ==> status == Active && !loading
      ensures loading ==> d
    {
      status != Active || loading
    }

    /** The input's onChange. */
    method Type(text: string)
      modifies this
      ensures price == text && loading == old(loading) && message == old(message)
    {
      price := text;
    }

    /**
     * handleSubmit up to the await: `parsed` is parseFloat(price). A
     * rejected price shows its message and calls nothing; an accepted one
     * clears the message, sets loading and is handed to onBidSubmit, which
     * disables the form until it settles.
     */
    method Submit(parsed: Option<real>, basePrice: real) returns (call: Option<real>)
      modifies this
      ensures price == old(price)
      ensures Validate(parsed, basePrice).Some? ==>
                call.None? && loading == old(loading)
                && message == Some(Failure(RejectionText(Validate(parsed, basePrice).value)))
      ensures Validate(parsed, basePrice).None? ==>
                call == parsed && loading && message.None?
      ensures call.Some? ==> call.value > 0.0 && call.value >= basePrice
      ensures call.Some? ==> forall status :: Disabled(status)
    {
      message := None;
      var rejection := Validate(parsed, basePrice);
      if rejection.Some? {
        message := Some(Failure(RejectionText(rejection.value)));
        return None;
      }
      loading := true;
      call := parsed;
    }

    /**
     * The rest of handleSubmit once onBidSubmit settles for `bid`: success
     * shows the price and clears the input; a throw shows the Error's
     * message, or 出價失敗; either way loading ends.
     */
    method Settle(bid: real, outcome: Settled)
      modifies this
      ensures !loading
      ensures outcome.Resolved? ==> message == Some(Success(bid)) && price == ""
      ensures outcome.Threw? ==>
                price == old(price)
                && message == Some(Failure(if outcome.errorMessage.Some? then outcome.errorMessage.value else "出價失敗"))
    {
      match outcome {
        case Resolved =>
          message := Some(Success(bid));
          price := "";
        case Threw(error) =>
          message := Some(Failure(if error.Some? then error.value else "出價失敗"));
      }
      loading := false;
    }
  }
}
