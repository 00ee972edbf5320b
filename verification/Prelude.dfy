/** What several parts of the model share. */
module Prelude {

  datatype Option<T> = None | Some(value: T)

  /** math.MaxInt32 */
  const MAX_INT32 := 0x7FFF_FFFF
}
