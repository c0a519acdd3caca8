/** The optional value every component uses where the source has None, undefined or NULL. */
module Common {
  datatype Option<+T> = None | Some(value: T)

  lemma {:induction false} SubsetIsSmaller<T>(a: set<T>, b: set<T>)
    requires a <= b
    ensures |a| <= |b|
  {
    if a != {} {
      var x :| x in a;
      SubsetIsSmaller(a - {x}, b - {x});
    }
  }
}
