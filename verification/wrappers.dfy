/** The optional value used wherever the dashboard code works with
    `None`: a failed query, a missing model, a NULL column. */
module Wrappers {

  datatype Option<+T> = None | Some(value: T)
}
