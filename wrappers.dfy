/** The optional-value wrapper used for every `field?:` of the project records. */
module Wrappers {

  datatype Option<+T> = None | Some(value: T)
}
