/** A value that may be missing: the chart's `null` inputs. */
module Wrappers {

  datatype Option<+T> = None | Some(value: T)
}
