/** Small value types shared by every component of the model. */
module Base {

  datatype Option<+T> = None | Some(value: T)

  /** Instants and durations, in one integer unit chosen by each component. */
  type Time = int

  /** NULLIF(s, ''). */
  function NullIfEmpty(s: string): Option<string> {
    if s == "" then None else Some(s)
  }

  lemma EmptyOrHasInt(s: set<int>)
    ensures s == {} || exists x: int :: x in s
  {
    if forall x: int :: x !in s {
      assert s == {};
    }
  }
}
