/** `DishName`: a non-blank dish name (menu/domain/value_objects/dish_name.py). */
module DishNames {
  import opened Errors
  import opened Text

  datatype DishName = DishName(value: string) {

    predicate Valid()
    {
      !IsBlank(value)
    }
  }

  /** `DishName(value)` and `DishName.create(value)`: a blank value raises; any other is kept untrimmed. */
  function NewDishName(value: string): (r: Result<DishName>)
    ensures r.Ok? <==> !IsBlank(value)
    ensures r.Ok? ==> r.value.value == value
    ensures r.Err? ==> r.error == Raise(InvariantViolationError, "Dish name must not be empty")
  {
    if IsBlank(value) then Err(Raise(InvariantViolationError, "Dish name must not be empty"))
    else Ok(DishName(value))
  }

  /** The empty string and strings of white space only are refused. */
  lemma {:induction false} BlankDishNamesRefused(value: string)
    requires forall i :: 0 <= i < |value| ==> IsSpace(value[i])
    ensures NewDishName(value).Err?
  {
    BlankIffAllSpace(value);
  }

  /** A name with a visible character anywhere is accepted as it is, surrounding white space included. */
  lemma {:induction false} DishNameKeptUntrimmed(value: string, i: nat)
    requires i < |value| && !IsSpace(value[i])
    ensures NewDishName(value) == Ok(DishName(value))
  {
    BlankIffAllSpace(value);
  }
}
