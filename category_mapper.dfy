/** `CategoryMapper` (menu/infrastructure/database/postgres/sqlalchemy/mappers/category_mapper.py). */
module CategoryMapping {
  import opened Errors
  import opened Ids
  import opened Text
  import opened CategoryNames
  import opened Categories

  /** A `categories` row. */
  datatype CategoryRow = CategoryRow(categoryId: Uuid, name: string, restaurantId: Uuid)

  /** `to_domain`: the name is rebuilt as a `CategoryName`, so a blank one raises. */
  function CategoryToDomain(row: CategoryRow): (r: Result<CategoryData>)
    ensures r.Ok? <==> !IsBlank(row.name)
    ensures r.Ok? ==> r.value.Valid()
    ensures r.Err? ==> r.error == Raise(InvariantViolationError, "Category name must not be empty")
  {
    var name :- NewCategoryName(row.name);
    Ok(CategoryData(row.categoryId, name, row.restaurantId))
  }

  /** `to_persistance`: the id, the name's string and the restaurant. */
  function CategoryToPersistence(c: CategoryData): (row: CategoryRow)
    ensures row.categoryId == c.categoryId && row.name == c.name.value && row.restaurantId == c.restaurantId
  {
    CategoryRow(c.categoryId, c.name.value, c.restaurantId)
  }

  /** Saving a valid category and loading it back gives the same category. */
  lemma {:induction false} CategoryDomainRowDomain(c: CategoryData)
    requires c.Valid()
    ensures CategoryToDomain(CategoryToPersistence(c)) == Ok(c)
  {
  }

  /** Loading a row with a non-blank name and saving it again gives the same row. */
  lemma {:induction false} CategoryRowDomainRow(row: CategoryRow)
    requires !IsBlank(row.name)
    ensures CategoryToDomain(row).Ok? && CategoryToPersistence(CategoryToDomain(row).value) == row
  {
  }
}
