/** The Option type used for JavaScript's "absent" results: a failed `find`,
    and the not-a-number that a division 0/0 produces. */
module Wrappers {

  datatype Option<+T> = None | Some(value: T)

}
