/** The optional value used for every nullable field of the model: `None` is
    Kotlin's `null`, an absent field that a serializer omits. */
module Wrappers {

  datatype Option<+T> = None | Some(value: T)
}
