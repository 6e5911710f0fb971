/** What several modules share. */
module Wrappers {
  datatype Option<+T> = None | Some(value: T)

  /** In nanoseconds. */
  const SECOND: int := 1_000_000_000

  lemma {:induction false} Fewer<T>(a: set<T>, b: set<T>)
    requires a <= b
    ensures |a| <= |b|
  {
    if a != {} {
      var x :| x in a;
      Fewer(a - {x}, b - {x});
    }
  }
}
