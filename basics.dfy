/** Values that JavaScript code in this system leaves `undefined` or `null`. */
module Basics {

  datatype Option<+T> = None | Some(value: T)

}
