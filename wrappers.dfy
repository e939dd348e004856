/** The Option type used wherever the source passes a possibly-absent value
    (a null pointer, an empty corner list, an end() iterator), and the one
    fact about sets that walking a set element by element needs. */
module Wrappers {

  datatype Option<+T> = None | Some(value: T)

  /** A set that is not empty has an element to pick. */
  lemma Inhabited(s: set<int>)
    ensures s == {} || exists x :: x in s
  {
    if forall x :: x !in s {
      assert s == {};
    }
  }
}
