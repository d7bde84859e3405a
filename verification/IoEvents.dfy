/** What an event loop wants of a descriptor, or what happened to it. */
module IoEvents {

  datatype Interest = Interest(read: bool, write: bool)

  const NOTHING := Interest(false, false)

  /** Every event of `a` is one of `b`. */
  predicate Within(a: Interest, b: Interest) {
    (a.read ==> b.read) && (a.write ==> b.write)
  }
}
