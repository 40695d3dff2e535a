/** Identifiers, timestamps and the identifier generator the factories draw from. */
module Ids {

  /** A UUID, in its canonical text form. */
  type Uuid = string

  /** A `DateTime` as the clock reports it; only equality and order are used. */
  type Timestamp = int

  /**
   * An `IUUIDGenerator`: an endless supply of identifiers, `source(drawn)` being
   * the one its next `create()` returns.
   */
  datatype IdGenerator = IdGenerator(source: nat -> Uuid, drawn: nat) {

    /** `uuid_generator.create()`: the next identifier and the generator after it. */
    function Next(): (r: (Uuid, IdGenerator))
      ensures r.0 == source(drawn)
      ensures r.1.source == source && r.1.drawn == drawn + 1
    {
      (source(drawn), IdGenerator(source, drawn + 1))
    }
  }
}
