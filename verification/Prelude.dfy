/** Small things shared by every model in this project. */
module Prelude {

  datatype Option<+T> = None | Some(value: T)

  /** Takes the next element of a set that a loop goes through. */
  method PickOne<T>(s: set<T>) returns (x: T)
    requires s != {}
    ensures x in s
  {
    x :| x in s;
  }
}
