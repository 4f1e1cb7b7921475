/** Picking an element of a set, for loops over sets whose order cannot be observed. */
module Sets {
  method Pick<T>(s: set<T>) returns (x: T)
    requires s != {}
    ensures x in s
  {
    x :| x in s;
  }
}
