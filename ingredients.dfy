/** `Ingredients`: a non-empty list of ingredient names (menu/domain/value_objects/ingredients.py). */
module IngredientLists {
  import opened Errors

  datatype Ingredients = Ingredients(items: seq<string>) {

    predicate Valid()
    {
      items != []
    }
  }

  /**
   * `Ingredients(items)` and `Ingredients.create(items)`: an empty list raises;
   * any other is kept in its order, entries unchecked.
   */
  function NewIngredients(items: seq<string>): (r: Result<Ingredients>)
    ensures r.Ok? <==> items != []
    ensures r.Ok? ==> r.value.items == items
    ensures r.Err? ==> r.error == Raise(InvariantViolationError, "Ingredients list cannot be empty")
  {
    if items == [] then Err(Raise(InvariantViolationError, "Ingredients list cannot be empty"))
    else Ok(Ingredients(items))
  }

  /** Entries are not validated: a list holding only an empty name is accepted. */
  lemma {:induction false} BlankEntriesAccepted()
    ensures NewIngredients([""]) == Ok(Ingredients([""]))
  {
  }
}
