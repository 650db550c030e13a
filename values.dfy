/**
 * Value-level vocabulary shared by the schema and the data-access layer.
 *
 * Two different kinds of "missing" occur in the data layer and are kept apart:
 * a SQL column may hold NULL (`Option`), and a field of a TypeScript insert
 * object may be `undefined`, i.e. not present at all (`Maybe`).
 */
module Values {

  /**
   * A timestamp, as whole seconds since the epoch: the schema's TIMESTAMP
   * columns have no fractional part, and their values are never before 1970.
   */
  type Instant = nat

  /** A nullable column value: `None` is SQL NULL. */
  datatype Option<+T> = None | Some(value: T)

  /** A field of an insert object: `Undefined` is a key that is absent (JavaScript `undefined`). */
  datatype Maybe<+T> = Undefined | Defined(value: T)
}
