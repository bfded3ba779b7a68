/** Optional values, shared by the handler model and the pipeline-action model. */
module Wrappers {

  /** Python's `Optional[T]`: either `None` or a present value. */
  datatype Option<T> = None | Some(value: T)
}
