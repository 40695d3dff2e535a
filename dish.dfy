/** The `Dish` entity (menu/domain/entities/dish.py). */
module Dishes {
  import opened Wrappers
  import opened Ids
  import opened MoneyValues
  import opened NutritionalValues
  import opened DishNames
  import opened IngredientLists
  import opened DishFilterValues

  /** The fields of a dish. `image` is carried as an opaque optional string. */
  datatype DishData = DishData(
    dishId: Uuid,
    name: DishName,
    description: string,
    price: Money,
    nutritionalInfo: NutritionalInfo,
    ingredients: Ingredients,
    filters: DishFilters,
    categoryId: Uuid,
    restaurantId: Uuid,
    image: Option<string>)
  {
    /** Every value object in the dish satisfies its own invariant. */
    predicate Valid()
    {
      name.Valid() && price.Valid() && nutritionalInfo.Valid() && ingredients.Valid()
    }

    /** The fields no updater touches. */
    predicate SameFixedFields(other: DishData)
    {
      dishId == other.dishId && categoryId == other.categoryId
      && restaurantId == other.restaurantId && image == other.image
    }
  }

  /** A dish. The entity checks nothing itself; validity comes from its value objects. */
  class Dish {
    var dishId: Uuid
    var name: DishName
    var description: string
    var price: Money
    var nutritionalInfo: NutritionalInfo
    var ingredients: Ingredients
    var filters: DishFilters
    var categoryId: Uuid
    var restaurantId: Uuid
    var image: Option<string>

    function Data(): DishData
      reads this
    {
      DishData(dishId, name, description, price, nutritionalInfo, ingredients, filters,
               categoryId, restaurantId, image)
    }

    /** `Dish(...)` and `Dish.create(...)`: every argument is stored unchanged. */
    constructor Create(d: DishData)
      ensures Data() == d
    {
      dishId, name, description, price := d.dishId, d.name, d.description, d.price;
      nutritionalInfo, ingredients, filters := d.nutritionalInfo, d.ingredients, d.filters;
      categoryId, restaurantId, image := d.categoryId, d.restaurantId, d.image;
    }

    /** `update_name` */
    method UpdateName(name: DishName)
      modifies this
      ensures Data() == old(Data()).(name := name)
      ensures Data().SameFixedFields(old(Data()))
      ensures old(Data().Valid()) && name.Valid() ==> Data().Valid()
    {
      this.name := name;
    }

    /** `update_description`: any string, unchecked. */
    method UpdateDescription(description: string)
      modifies this
      ensures Data() == old(Data()).(description := description)
      ensures Data().SameFixedFields(old(Data()))
      ensures old(Data().Valid()) ==> Data().Valid()
    {
      this.description := description;
    }

    /** `update_price` */
    method UpdatePrice(price: Money)
      modifies this
      ensures Data() == old(Data()).(price := price)
      ensures Data().SameFixedFields(old(Data()))
      ensures old(Data().Valid()) && price.Valid() ==> Data().Valid()
    {
      this.price := price;
    }

    /** `update_nutritional_info` */
    method UpdateNutritionalInfo(nutritionalInfo: NutritionalInfo)
      modifies this
      ensures Data() == old(Data()).(nutritionalInfo := nutritionalInfo)
      ensures Data().SameFixedFields(old(Data()))
      ensures old(Data().Valid()) && nutritionalInfo.Valid() ==> Data().Valid()
    {
      this.nutritionalInfo := nutritionalInfo;
    }

    /** `update_ingredients` */
    method UpdateIngredients(ingredients: Ingredients)
      modifies this
      ensures Data() == old(Data()).(ingredients := ingredients)
      ensures Data().SameFixedFields(old(Data()))
      ensures old(Data().Valid()) && ingredients.Valid() ==> Data().Valid()
    {
      this.ingredients := ingredients;
    }

    /** `update_filters`: any list of filters, unchecked. */
    method UpdateFilters(filters: DishFilters)
      modifies this
      ensures Data() == old(Data()).(filters := filters)
      ensures Data().SameFixedFields(old(Data()))
      ensures old(Data().Valid()) ==> Data().Valid()
    {
      this.filters := filters;
    }
  }
}
