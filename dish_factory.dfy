/**
 * `DishFactory.create` (menu/domain/factories/dish_factory.py): validates the
 * raw fields in a fixed order, then draws an id and builds the dish.
 */
module DishFactories {
  import opened Wrappers
  import opened Errors
  import opened Ids
  import opened MoneyValues
  import opened NutritionalValues
  import opened DishNames
  import opened IngredientLists
  import opened DishFilterValues
  import opened Dishes

  /** `DishFactoryDTO` */
  datatype DishFactoryInput = DishFactoryInput(
    name: string,
    description: string,
    price: real,
    currency: string,
    calories: real,
    proteins: real,
    fats: real,
    carbohydrates: real,
    ingredients: seq<string>,
    filters: seq<DishFilterType>,
    categoryId: Uuid,
    restaurantId: Uuid)

  /** The value objects built from the input, before an id is drawn. */
  datatype DishParts = DishParts(
    name: DishName, price: Money, nutritionalInfo: NutritionalInfo, ingredients: Ingredients, filters: DishFilters)

  /**
   * The validation sequence: name, price, nutrition, ingredients, filters. The
   * first value object that refuses its input decides the error.
   */
  function ValidateDishInput(data: DishFactoryInput): (r: Result<DishParts>)
    ensures r.Ok? <==> && !Text.IsBlank(data.name)
                       && Money(data.price, data.currency).Valid()
                       && NutritionalInfo(data.calories, data.proteins, data.fats, data.carbohydrates).Valid()
                       && data.ingredients != []
    ensures r.Ok? ==> r.value == DishParts(DishName(data.name), Money(data.price, data.currency),
                                           NutritionalInfo(data.calories, data.proteins, data.fats, data.carbohydrates),
                                           Ingredients(data.ingredients), DishFilters(data.filters))
    ensures Text.IsBlank(data.name) ==> r == Err(Raise(InvariantViolationError, "Dish name must not be empty"))
    ensures !Text.IsBlank(data.name) && NewMoney(data.price, data.currency).Err? ==>
              r == Err(NewMoney(data.price, data.currency).error)
    ensures && !Text.IsBlank(data.name) && NewMoney(data.price, data.currency).Ok?
            && NewNutritionalInfo(data.calories, data.proteins, data.fats, data.carbohydrates).Err? ==>
              r == Err(NewNutritionalInfo(data.calories, data.proteins, data.fats, data.carbohydrates).error)
    ensures && !Text.IsBlank(data.name) && NewMoney(data.price, data.currency).Ok?
            && NewNutritionalInfo(data.calories, data.proteins, data.fats, data.carbohydrates).Ok?
            && data.ingredients == [] ==>
              r == Err(Raise(InvariantViolationError, "Ingredients list cannot be empty"))
  {
    var name :- NewDishName(data.name);
    var price :- NewMoney(data.price, data.currency);
    var nutritionalInfo :- NewNutritionalInfo(data.calories, data.proteins, data.fats, data.carbohydrates);
    var ingredients :- NewIngredients(data.ingredients);
    Ok(DishParts(name, price, nutritionalInfo, ingredients, DishFilters(data.filters)))
  }

  /** The message Python gives when `Dish.create` is called without its `image` argument. */
  const MissingImageMessage := "Dish.create() missing 1 required positional argument: 'image'"

  /**
   * `DishFactory.create` as it is written: once every check passes it draws an
   * id and then calls `Dish.create` without `image`, which raises `TypeError`.
   * The result pairs the outcome with the generator afterwards.
   */
  function CreateDishAsWritten(gen: IdGenerator, data: DishFactoryInput): (r: (Result<DishData>, IdGenerator))
    ensures ValidateDishInput(data).Err? ==> r == (Err(ValidateDishInput(data).error), gen)
    ensures ValidateDishInput(data).Ok? ==> r == (Err(Raise(TypeError, MissingImageMessage)), gen.Next().1)
  {
    match ValidateDishInput(data)
    case Err(e) => (Err(e), gen)
    case Ok(parts) =>
      var (id, next) := gen.Next();
      (Err(Raise(TypeError, MissingImageMessage)), next)
  }

  /** As written, the factory never returns a dish: every input ends in an exception. */
  lemma {:induction false} FactoryAsWrittenNeverSucceeds(gen: IdGenerator, data: DishFactoryInput)
    ensures CreateDishAsWritten(gen, data).0.Err?
    ensures ValidateDishInput(data).Ok? ==>
              CreateDishAsWritten(gen, data).0.error.cls == TypeError
              && CreateDishAsWritten(gen, data).1.drawn == gen.drawn + 1
  {
  }

  /**
   * `DishFactory.create` with the dish given no image: the checks run first, no
   * id is drawn when one fails, and on success the dish holds the next id, the
   * validated value objects and the copied description and ids.
   */
  function CreateDish(gen: IdGenerator, data: DishFactoryInput): (r: (Result<DishData>, IdGenerator))
    ensures r.0.Ok? <==> ValidateDishInput(data).Ok?
    ensures r.0.Err? ==> r.0.error == ValidateDishInput(data).error && r.1 == gen
    ensures r.0.Ok? ==> && r.1 == gen.Next().1
                        && r.0.value.dishId == gen.source(gen.drawn)
                        && r.0.value.Valid()
                        && r.0.value.name.value == data.name
                        && r.0.value.description == data.description
                        && r.0.value.price == Money(data.price, data.currency)
                        && r.0.value.nutritionalInfo
                             == NutritionalInfo(data.calories, data.proteins, data.fats, data.carbohydrates)
                        && r.0.value.ingredients.items == data.ingredients
                        && r.0.value.filters.filters == data.filters
                        && r.0.value.categoryId == data.categoryId
                        && r.0.value.restaurantId == data.restaurantId
                        && r.0.value.image == None
  {
    match ValidateDishInput(data)
    case Err(e) => (Err(e), gen)
    case Ok(parts) =>
      var (id, next) := gen.Next();
      (Ok(DishData(id, parts.name, data.description, parts.price, parts.nutritionalInfo, parts.ingredients,
                   parts.filters, data.categoryId, data.restaurantId, None)), next)
  }

  /** A blank name is reported before anything else is looked at, whatever the other fields hold. */
  lemma {:induction false} NameCheckedFirst(gen: IdGenerator, data: DishFactoryInput)
    requires Text.IsBlank(data.name)
    ensures CreateDish(gen, data) == (Err(Raise(InvariantViolationError, "Dish name must not be empty")), gen)
  {
  }
}
