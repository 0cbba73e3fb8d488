/** The optional-value datatype the descriptor tables use for "no entry". */
module Wrappers {

  datatype Option<+T> = None | Some(value: T)

}
