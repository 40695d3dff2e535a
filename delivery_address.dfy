/** `DeliveryAddress`: a non-blank address (order/domain/value_objects/delivery_address.py). */
module DeliveryAddresses {
  import opened Wrappers
  import opened Errors
  import opened Text

  datatype DeliveryAddress = DeliveryAddress(value: string) {

    predicate Valid()
    {
      !IsBlank(value)
    }
  }

  /** `DeliveryAddress(value)`: a blank value raises; any other value is kept untrimmed. */
  function NewDeliveryAddress(value: string): (r: Result<DeliveryAddress>)
    ensures r.Ok? <==> !IsBlank(value)
    ensures r.Ok? ==> r.value.value == value
    ensures r.Err? ==> r.error == Raise(InvariantViolationError, "Address is required")
  {
    if IsBlank(value) then Err(Raise(InvariantViolationError, "Address is required"))
    else Ok(DeliveryAddress(value))
  }

  /** The empty string and strings of white space only are refused. */
  lemma {:induction false} BlankAddressesRefused(value: string)
    requires forall i :: 0 <= i < |value| ==> IsSpace(value[i])
    ensures NewDeliveryAddress(value).Err?
  {
    BlankIffAllSpace(value);
  }

  /** An accepted address is never the empty string (so it is truthy when written back). */
  lemma {:induction false} ValidAddressNonEmpty(a: DeliveryAddress)
    requires a.Valid()
    ensures a.value != ""
  {
    EmptyIsBlank();
  }

  /**
   * `DeliveryAddress(s) if s else None`, as the create-order use case and the
   * order mapper both write it: `None` and the empty string give no address,
   * any other string must make a valid `DeliveryAddress`.
   */
  function AddressIfGiven(s: Option<string>): (r: Result<Option<DeliveryAddress>>)
    ensures s.None? || s == Some("") ==> r == Ok(None)
    ensures s.Some? && s.value != "" ==>
              && (r.Ok? <==> !IsBlank(s.value))
              && (r.Ok? ==> r.value == Some(DeliveryAddress(s.value)))
              && (r.Err? ==> r.error == Raise(InvariantViolationError, "Address is required"))
  {
    if s.None? || s.value == "" then Ok(None)
    else
      var a :- NewDeliveryAddress(s.value);
      Ok(Some(a))
  }
}
