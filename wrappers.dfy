/** The optional value the tracer uses for "no hit" (std::optional). */
module Wrappers {
  datatype Option<+T> = None | Some(value: T)
}
