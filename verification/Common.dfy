// Datatypes shared by the models.

module Common {
  datatype Option<+T> = None | Some(value: T)

  /** Some member of a set that has one. */
  method AnyOf<T>(items: set<T>) returns (item: T)
    requires items != {}
    ensures item in items
  {
    item :| item in items;
  }
}
