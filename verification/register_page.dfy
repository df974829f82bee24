/**
 * The registration form's submit: the password must match its
 * confirmation and be at least six characters long before the account is
 * requested.
 */
module RegisterPage {
  import opened Common

  const MismatchText := "密碼與確認密碼不一致"
  const TooShortText := "密碼長度至少需要 6 個字元"
  const FallbackText := "註冊失敗"

  /** The two password checks, the mismatch first; None when both pass. */
  function PasswordCheck(password: string, confirm: string): (r: Option<string>)
    ensures r.None? <==> password == confirm && |password| >= 6
  {
    if password != confirm then Some(MismatchText)
    else if |password| < 6 then Some(TooShortText)
    else None
  }

  /**
   * The mismatch message wins whenever the two differ, whatever their
   * lengths; the length message is given only for a matching pair.
   */
  lemma MismatchWins(password: string, confirm: string)
    ensures password != confirm ==> PasswordCheck(password, confirm) == Some(MismatchText)
    ensures PasswordCheck(password, confirm) == Some(TooShortText) <==> password == confirm && |password| < 6
  {
  }

  /** How the awaited register call ended: resolved, or threw (with the Error's message when it was an Error). */
  datatype Settled = Resolved | Threw(errorMessage: Option<string>)

  class Form {
    var loading: bool
    var error: Option<string>
    var success: bool

    constructor()
      ensures !loading && error.None? && !success
    {
      loading, error, success := false, None, false;
    }

    /**
     * handleSubmit up to the await: error and success are cleared; a
     * failed check shows its message and returns before loading is set and
     * before register is called; otherwise loading is set and register is
     * called (`called`).
     */
    method Submit(password: string, confirm: string) returns (called: bool)
      modifies this
      ensures !success
      ensures called <==> PasswordCheck(password, confirm).None?
      ensures !called ==> error == PasswordCheck(password, confirm) && loading == old(loading)
      ensures called ==> error.None? && loading
    {
      error := None;
      success := false;
      var check := PasswordCheck(password, confirm);
      if check.Some? {
        error := check;
        return false;
      }
      loading := true;
      called := true;
    }

    /** The rest of handleSubmit once register settles; the redirect two seconds later is not modelled. */
    method Settle(outcome: Settled)
      modifies this
      ensures !loading
      ensures outcome.Resolved? ==> success && error == old(error)
      ensures outcome.Threw? ==>
                success == old(success)
                && error == Some(if outcome.errorMessage.Some? then outcome.errorMessage.value else FallbackText)
    {
      match outcome {
        case Resolved =>
          success := true;
        case Threw(message) =>
          error := Some(if message.Some? then message.value else FallbackText);
      }
      loading := false;
    }
  }
}
