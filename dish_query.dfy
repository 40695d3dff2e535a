/**
 * The branch of `GetDishesByRestaurantUseCase.execute`
 * (menu/application/usecases/query/get_dishes_by_restaurant_use_case.py) that
 * chooses between the filtered and the plain listing of a restaurant's dishes.
 */
module DishQueries {
  import opened Wrappers
  import opened Ids
  import opened DishFilterValues

  /** `GetDishesByRestaurantQuery` */
  datatype DishQuery = DishQuery(restaurantId: Uuid, filters: Option<seq<DishFilterType>>, maxCalories: Option<real>)

  /** The read-repository call the use case makes. */
  datatype ReadCall =
    | FilterCall(restaurantId: Uuid, filters: seq<DishFilterType>, maxCalories: Option<real>)
    | ListCall(restaurantId: Uuid)

  /** `query.filters` as a Python truth value: present and non-empty. */
  predicate HasFilters(q: DishQuery)
  {
    q.filters.Some? && q.filters.value != []
  }

  /** Which call `execute` makes for the query. */
  function ChooseRead(q: DishQuery): (c: ReadCall)
    ensures c.FilterCall? <==> HasFilters(q) || q.maxCalories.Some?
    ensures c.restaurantId == q.restaurantId
    ensures c.FilterCall? ==> c.maxCalories == q.maxCalories
    ensures c.FilterCall? && q.filters.Some? ==> c.filters == q.filters.value
    ensures c.FilterCall? && q.filters.None? ==> c.filters == []
  {
    if HasFilters(q) || q.maxCalories.Some? then
      FilterCall(q.restaurantId, if q.filters.Some? then q.filters.value else [], q.maxCalories)
    else ListCall(q.restaurantId)
  }

  /** A zero calorie limit is a given limit: the filtered call is made. */
  lemma {:induction false} ZeroCaloriesFilters(restaurantId: Uuid, filters: Option<seq<DishFilterType>>)
    ensures ChooseRead(DishQuery(restaurantId, filters, Some(0.0))).FilterCall?
  {
  }

  /** No filters, or an empty list of them, and no calorie limit: the plain listing. */
  lemma {:induction false} NoCriteriaLists(restaurantId: Uuid)
    ensures ChooseRead(DishQuery(restaurantId, None, None)) == ListCall(restaurantId)
    ensures ChooseRead(DishQuery(restaurantId, Some([]), None)) == ListCall(restaurantId)
  {
  }

  /**
   * Absent filters and an empty filter list are the same query: replacing
   * `None` by `[]` never changes the call made.
   */
  lemma {:induction false} AbsentFiltersAreEmpty(q: DishQuery)
    requires q.filters.None?
    ensures ChooseRead(q) == ChooseRead(q.(filters := Some([])))
  {
  }
}
