/** `DishMapper` (menu/infrastructure/database/postgres/sqlalchemy/mappers/dish_mapper.py). */
module DishMapping {
  import opened Wrappers
  import opened Errors
  import opened Ids
  import opened Text
  import opened MoneyValues
  import opened NutritionalValues
  import opened DishNames
  import opened IngredientLists
  import opened DishFilterValues
  import opened Dishes

  /** A `dishes` row: the value objects flattened into columns. */
  datatype DishRow = DishRow(
    dishId: Uuid,
    name: string,
    description: string,
    price: real,
    currency: string,
    calories: real,
    proteins: real,
    fats: real,
    carbohydrates: real,
    ingredients: seq<string>,
    filters: seq<DishFilterType>,
    categoryId: Uuid,
    restaurantId: Uuid,
    image: Option<string>)

  /** The row's columns satisfy every check the value objects make. */
  predicate ValidRow(row: DishRow)
  {
    && !IsBlank(row.name)
    && Money(row.price, row.currency).Valid()
    && NutritionalInfo(row.calories, row.proteins, row.fats, row.carbohydrates).Valid()
    && row.ingredients != []
  }

  /**
   * `to_domain`: rebuilds every value object, in the order name, price,
   * nutrition, ingredients, filters; the first check that fails raises.
   */
  function DishToDomain(row: DishRow): (r: Result<DishData>)
    ensures r.Ok? <==> ValidRow(row)
    ensures r.Ok? ==> r.value.Valid()
    ensures IsBlank(row.name) ==> r == Err(Raise(InvariantViolationError, "Dish name must not be empty"))
    ensures !IsBlank(row.name) && NewMoney(row.price, row.currency).Err? ==>
              r == Err(NewMoney(row.price, row.currency).error)
    ensures && !IsBlank(row.name) && NewMoney(row.price, row.currency).Ok?
            && NewNutritionalInfo(row.calories, row.proteins, row.fats, row.carbohydrates).Err? ==>
              r == Err(NewNutritionalInfo(row.calories, row.proteins, row.fats, row.carbohydrates).error)
  {
    var name :- NewDishName(row.name);
    var price :- NewMoney(row.price, row.currency);
    var nutritionalInfo :- NewNutritionalInfo(row.calories, row.proteins, row.fats, row.carbohydrates);
    var ingredients :- NewIngredients(row.ingredients);
    Ok(DishData(row.dishId, name, row.description, price, nutritionalInfo, ingredients,
                DishFilters(row.filters), row.categoryId, row.restaurantId, row.image))
  }

  /** `to_persistence`: splits the price and the nutrition into their columns. */
  function DishToPersistence(d: DishData): (row: DishRow)
    ensures row.name == d.name.value
    ensures row.price == d.price.amount && row.currency == d.price.currency
    ensures && row.calories == d.nutritionalInfo.calories && row.proteins == d.nutritionalInfo.proteins
            && row.fats == d.nutritionalInfo.fats && row.carbohydrates == d.nutritionalInfo.carbohydrates
    ensures row.ingredients == d.ingredients.items && row.filters == d.filters.filters
    ensures && row.dishId == d.dishId && row.description == d.description && row.categoryId == d.categoryId
            && row.restaurantId == d.restaurantId && row.image == d.image
  {
    DishRow(d.dishId, d.name.value, d.description, d.price.amount, d.price.currency,
            d.nutritionalInfo.calories, d.nutritionalInfo.proteins, d.nutritionalInfo.fats,
            d.nutritionalInfo.carbohydrates, d.ingredients.items, d.filters.filters,
            d.categoryId, d.restaurantId, d.image)
  }

  /** Saving a valid dish and loading it back gives the same dish. */
  lemma {:induction false} DishDomainRowDomain(d: DishData)
    requires d.Valid()
    ensures DishToDomain(DishToPersistence(d)) == Ok(d)
  {
    NewNutritionalInfoOfValid(d.nutritionalInfo);
  }

  /** Loading a row that passes every check and saving it again gives the same row. */
  lemma {:induction false} DishRowDomainRow(row: DishRow)
    requires ValidRow(row)
    ensures DishToDomain(row).Ok? && DishToPersistence(DishToDomain(row).value) == row
  {
  }

  /** A row with no ingredients is refused on load once every earlier check passes. */
  lemma {:induction false} EmptyIngredientsRowRefused(row: DishRow)
    requires !IsBlank(row.name) && Money(row.price, row.currency).Valid()
    requires NutritionalInfo(row.calories, row.proteins, row.fats, row.carbohydrates).Valid()
    requires row.ingredients == []
    ensures DishToDomain(row) == Err(Raise(InvariantViolationError, "Ingredients list cannot be empty"))
  {
  }
}
