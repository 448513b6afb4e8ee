/** How one stage of a generation ends: the run goes on, or it stops
    because a cohort died out, or because the preference-function selector
    is not one the program knows. The program stops with `exit(1)` in the
    last two cases. */
module Outcome {
  datatype Status = Running | Extinct | WrongPreference

  datatype Option<T> = None | Some(value: T)
}
