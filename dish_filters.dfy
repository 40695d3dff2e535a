/** `DishFilterType` and `DishFilters` (menu/domain/value_objects/dish_filters.py). */
module DishFilterValues {

  /** The three filters a dish can carry (stored as "vegan", "gluten_free", "sports_menu"). */
  datatype DishFilterType = Vegan | GlutenFree | SportsMenu

  /** A list of filters, taken as given. */
  datatype DishFilters = DishFilters(filters: seq<DishFilterType>)
}
