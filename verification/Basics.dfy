/** What several components share. */
module Basics {

  datatype Option<+T> = None | Some(value: T)

  /** Entry k of a list of lists that may be too short. */
  function Nth<T>(world: seq<seq<T>>, k: nat): (r: seq<T>) {
    if k < |world| then world[k] else []
  }

  lemma Assoc<T>(a: seq<T>, b: seq<T>, c: seq<T>)
    ensures a + b + c == a + (b + c)
  {
  }
}
