/** An optional value: the model's stand-in both for the `MISSING` sentinel of
    dataclass defaults and for the "not a field" signal of the resolver. */
module Wrappers {

  datatype Option<+T> = None | Some(value: T)
}
