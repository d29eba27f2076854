/** Small types shared by the models. */
module Basics {
  datatype Option<+T> = None | Some(value: T)

  /** One step of a walk over a set in any order. */
  lemma MoveOne<T>(left: set<T>, done: set<T>, x: T)
    requires left !! done && x in left
    ensures left - {x} !! done + {x} && left - {x} + (done + {x}) == left + done
  {
  }
}
