/** An optional value; `None` stands for a JavaScript field that was never assigned (`undefined`). */
module Wrappers {
  datatype Option<+T> = None | Some(value: T)
}
