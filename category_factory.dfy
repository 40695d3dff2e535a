/** `CategoryFactory.create` (menu/domain/factories/category_factory.py). */
module CategoryFactories {
  import opened Errors
  import opened Ids
  import opened Text
  import opened CategoryNames
  import opened Categories

  /** `CategoryFactoryDTO` */
  datatype CategoryFactoryInput = CategoryFactoryInput(name: string, restaurantId: Uuid)

  /**
   * Validates the name, then draws the next id: a blank name raises and draws
   * nothing; otherwise the category holds the next id, the untrimmed name and
   * the given restaurant.
   */
  function CreateCategory(gen: IdGenerator, data: CategoryFactoryInput): (r: (Result<CategoryData>, IdGenerator))
    ensures r.0.Ok? <==> !IsBlank(data.name)
    ensures r.0.Err? ==> r.0.error == Raise(InvariantViolationError, "Category name must not be empty") && r.1 == gen
    ensures r.0.Ok? ==> && r.0.value == CategoryData(gen.source(gen.drawn), CategoryName(data.name), data.restaurantId)
                        && r.0.value.Valid()
                        && r.1 == gen.Next().1
  {
    match NewCategoryName(data.name)
    case Err(e) => (Err(e), gen)
    case Ok(name) =>
      var (id, next) := gen.Next();
      (Ok(CategoryData(id, name, data.restaurantId)), next)
  }

  /** Successive creations take successive ids from the generator. */
  lemma {:induction false} SuccessiveIds(gen: IdGenerator, a: CategoryFactoryInput, b: CategoryFactoryInput)
    requires !IsBlank(a.name) && !IsBlank(b.name)
    ensures var (first, gen1) := CreateCategory(gen, a);
            var (second, gen2) := CreateCategory(gen1, b);
            && first.value.categoryId == gen.source(gen.drawn)
            && second.value.categoryId == gen.source(gen.drawn + 1)
            && gen2.drawn == gen.drawn + 2
  {
  }
}
