/** What all modules share: a value that may be missing (a NULL pointer or an absent key in the C source),
    and lists without repetition. */
module Wrappers {
  datatype Option<+T> = None | Some(value: T) {
    function GetOr(default: T): T {
      if Some? then value else default
    }
  }

  predicate Distinct<T(==)>(s: seq<T>) { forall i, j | 0 <= i < j < |s| :: s[i] != s[j] }
}
