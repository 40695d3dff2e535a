/** `CategoryName`: a non-blank category name (menu/domain/value_objects/category_name.py). */
module CategoryNames {
  import opened Errors
  import opened Text

  datatype CategoryName = CategoryName(value: string) {

    predicate Valid()
    {
      !IsBlank(value)
    }
  }

  /** `CategoryName(value)` and `CategoryName.create(value)`: a blank value raises; any other is kept untrimmed. */
  function NewCategoryName(value: string): (r: Result<CategoryName>)
    ensures r.Ok? <==> !IsBlank(value)
    ensures r.Ok? ==> r.value.value == value
    ensures r.Err? ==> r.error == Raise(InvariantViolationError, "Category name must not be empty")
  {
    if IsBlank(value) then Err(Raise(InvariantViolationError, "Category name must not be empty"))
    else Ok(CategoryName(value))
  }

  /** The empty string and strings of white space only are refused. */
  lemma {:induction false} BlankCategoryNamesRefused(value: string)
    requires forall i :: 0 <= i < |value| ==> IsSpace(value[i])
    ensures NewCategoryName(value).Err?
  {
    BlankIffAllSpace(value);
  }

  /** A name with a visible character anywhere is accepted as it is, surrounding white space included. */
  lemma {:induction false} CategoryNameKeptUntrimmed(value: string, i: nat)
    requires i < |value| && !IsSpace(value[i])
    ensures NewCategoryName(value) == Ok(CategoryName(value))
  {
    BlankIffAllSpace(value);
  }
}
