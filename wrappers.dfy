/** The conventional optional value, used where the decoder has "no key pending". */
module Wrappers {

  datatype Option<+T> = None | Some(value: T)
}
