/** The `Category` entity (menu/domain/entities/category.py). */
module Categories {
  import opened Ids
  import opened CategoryNames

  datatype CategoryData = CategoryData(categoryId: Uuid, name: CategoryName, restaurantId: Uuid) {

    predicate Valid()
    {
      name.Valid()
    }
  }

  /** A menu category. The entity checks nothing itself; validity comes from its name. */
  class Category {
    var categoryId: Uuid
    var name: CategoryName
    var restaurantId: Uuid

    function Data(): CategoryData
      reads this
    {
      CategoryData(categoryId, name, restaurantId)
    }

    /** `Category(...)` and `Category.create(...)`: all three arguments are stored unchanged. */
    constructor Create(d: CategoryData)
      ensures Data() == d
    {
      categoryId, name, restaurantId := d.categoryId, d.name, d.restaurantId;
    }

    /** `update_name`: replaces the name, unchecked; the two ids stay. */
    method UpdateName(name: CategoryName)
      modifies this
      ensures Data() == old(Data()).(name := name)
      ensures categoryId == old(categoryId) && restaurantId == old(restaurantId)
      ensures old(Data().Valid()) && name.Valid() ==> Data().Valid()
    {
      this.name := name;
    }
  }
}
