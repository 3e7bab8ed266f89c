/** Optional values, used where the program has a "None" or an absent reply. */
module Wrappers {

  datatype Option<+T> = None | Some(value: T)

}
