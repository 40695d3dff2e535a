/** `NutritionalInfo`: four non-negative nutrient amounts (menu/domain/value_objects/nutritional_info.py). */
module NutritionalValues {
  import opened Wrappers
  import opened Errors

  datatype NutritionalInfo = NutritionalInfo(calories: real, proteins: real, fats: real, carbohydrates: real) {

    predicate Valid()
    {
      calories >= 0.0 && proteins >= 0.0 && fats >= 0.0 && carbohydrates >= 0.0
    }

    /** The (name, value) pairs `__post_init__` walks, in its order. */
    function Fields(): seq<(string, real)>
    {
      [("calories", calories), ("proteins", proteins), ("fats", fats), ("carbohydrates", carbohydrates)]
    }
  }

  /** The name of the first field of `fields` whose value is negative, if any. */
  function FirstNegative(fields: seq<(string, real)>): (r: Option<string>)
    ensures r.None? <==> forall i :: 0 <= i < |fields| ==> fields[i].1 >= 0.0
  {
    if fields == [] then None
    else if fields[0].1 < 0.0 then Some(fields[0].0)
    else
      assert forall i :: 1 <= i < |fields| ==> fields[i] == fields[1..][i - 1];
      FirstNegative(fields[1..])
  }

  /** The message raised for a negative field: the field's name followed by " cannot be negative". */
  function NegativeMessage(field: string): string
  {
    field + " cannot be negative"
  }

  /**
   * `NutritionalInfo(...)` and `NutritionalInfo.create(...)`: valid values are
   * kept as given; otherwise the first negative field is named in the error.
   */
  function NewNutritionalInfo(calories: real, proteins: real, fats: real, carbohydrates: real): (r: Result<NutritionalInfo>)
    ensures r.Ok? <==> NutritionalInfo(calories, proteins, fats, carbohydrates).Valid()
    ensures r.Ok? ==> r.value == NutritionalInfo(calories, proteins, fats, carbohydrates)
  {
    var info := NutritionalInfo(calories, proteins, fats, carbohydrates);
    var fields := info.Fields();
    assert fields[0].1 == calories && fields[1].1 == proteins && fields[2].1 == fats && fields[3].1 == carbohydrates;
    match FirstNegative(fields)
    case Some(field) => Err(Raise(InvariantViolationError, NegativeMessage(field)))
    case None => Ok(info)
  }

  /** The fields are checked in the order calories, proteins, fats, carbohydrates. */
  lemma {:induction false} FirstNegativeFieldReported(calories: real, proteins: real, fats: real, carbohydrates: real)
    ensures calories < 0.0 ==>
              NewNutritionalInfo(calories, proteins, fats, carbohydrates)
              == Err(Raise(InvariantViolationError, NegativeMessage("calories")))
    ensures calories >= 0.0 && proteins < 0.0 ==>
              NewNutritionalInfo(calories, proteins, fats, carbohydrates)
              == Err(Raise(InvariantViolationError, NegativeMessage("proteins")))
    ensures calories >= 0.0 && proteins >= 0.0 && fats < 0.0 ==>
              NewNutritionalInfo(calories, proteins, fats, carbohydrates)
              == Err(Raise(InvariantViolationError, NegativeMessage("fats")))
    ensures calories >= 0.0 && proteins >= 0.0 && fats >= 0.0 && carbohydrates < 0.0 ==>
              NewNutritionalInfo(calories, proteins, fats, carbohydrates)
              == Err(Raise(InvariantViolationError, NegativeMessage("carbohydrates")))
  {
    var c, p, f, h := ("calories", calories), ("proteins", proteins), ("fats", fats), ("carbohydrates", carbohydrates);
    assert NutritionalInfo(calories, proteins, fats, carbohydrates).Fields() == [c, p, f, h];
    assert [c, p, f, h][1..] == [p, f, h] && [p, f, h][1..] == [f, h] && [f, h][1..] == [h];
    if calories < 0.0 {
      assert FirstNegative([c, p, f, h]) == Some("calories");
    } else if proteins < 0.0 {
      assert FirstNegative([c, p, f, h]) == FirstNegative([p, f, h]) == Some("proteins");
    } else if fats < 0.0 {
      assert FirstNegative([c, p, f, h]) == FirstNegative([p, f, h]) == FirstNegative([f, h]) == Some("fats");
    } else if carbohydrates < 0.0 {
      assert FirstNegative([c, p, f, h]) == FirstNegative([p, f, h]) == FirstNegative([f, h])
             == FirstNegative([h]) == Some("carbohydrates");
    }
  }

  /** All-zero values are accepted. */
  lemma {:induction false} AllZeroAccepted()
    ensures NewNutritionalInfo(0.0, 0.0, 0.0, 0.0) == Ok(NutritionalInfo(0.0, 0.0, 0.0, 0.0))
  {
  }

  /** Rebuilding a valid value from its four fields gives it back unchanged. */
  lemma {:induction false} NewNutritionalInfoOfValid(n: NutritionalInfo)
    requires n.Valid()
    ensures NewNutritionalInfo(n.calories, n.proteins, n.fats, n.carbohydrates) == Ok(n)
  {
  }
}
