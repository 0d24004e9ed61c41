/** Option type used where the Java code uses `null` as "absent". */
module Wrappers {
  datatype Option<+T> = None | Some(value: T)
}
