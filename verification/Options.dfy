/** What the other modules share: optional and fallible values, and a fact about set sizes. */
module Options {

  datatype Option<+T> = None | Some(value: T)

  /** The outcome of a call that can raise. */
  datatype Result<+T> = Ok(value: T) | Raised

  lemma {:induction false} SubsetSize<T>(a: set<T>, b: set<T>)
    requires a <= b
    ensures |a| <= |b|
  {
    if a != {} {
      var x :| x in a;
      SubsetSize(a - {x}, b - {x});
    }
  }
}
