/** Optional values and results with an error, used for the chart's
    optional custom colours and for the outcome of a layout pass. */
module Wrappers {

  datatype Option<+T> = None | Some(value: T)

  datatype Result<+R, +E> = Success(value: R) | Failure(error: E)
}
