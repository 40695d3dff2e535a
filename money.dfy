/** `Money`: a non-negative amount in a non-blank currency (menu/domain/value_objects/money.py). */
module MoneyValues {
  import opened Errors
  import opened Text

  /** The currency a `Money` gets when none is given. */
  const DefaultCurrency: string := "USD"

  /** A `Decimal` amount (exact) and a currency code, both stored as given. */
  datatype Money = Money(amount: real, currency: string) {

    /** What `__post_init__` guarantees of every `Money` that exists. */
    predicate Valid()
    {
      amount >= 0.0 && !IsBlank(currency)
    }
  }

  /**
   * `Money(amount, currency)` and `Money.create(amount, currency)`, which do the
   * same: the amount is checked first, then the currency.
   */
  function NewMoney(amount: real, currency: string := DefaultCurrency): (r: Result<Money>)
    ensures r.Ok? <==> Money(amount, currency).Valid()
    ensures r.Ok? ==> r.value.amount == amount && r.value.currency == currency
    ensures amount < 0.0 ==> r == Err(Raise(InvariantViolationError, "Amount cannot be negative"))
    ensures amount >= 0.0 && IsBlank(currency) ==>
              r == Err(Raise(InvariantViolationError, "Currency must not be empty"))
  {
    if amount < 0.0 then Err(Raise(InvariantViolationError, "Amount cannot be negative"))
    else if IsBlank(currency) then Err(Raise(InvariantViolationError, "Currency must not be empty"))
    else Ok(Money(amount, currency))
  }

  /** Rebuilding a valid `Money` from its two fields gives it back unchanged. */
  lemma {:induction false} NewMoneyOfValid(m: Money)
    requires m.Valid()
    ensures NewMoney(m.amount, m.currency) == Ok(m)
  {
  }

  /** Zero is an accepted amount, and the default currency is "USD". */
  lemma {:induction false} ZeroUsdAccepted()
    ensures NewMoney(0.0) == Ok(Money(0.0, "USD"))
  {
    assert !IsBlank("USD") by {
      NonSpaceHeadNotBlank("USD");
    }
  }
}
