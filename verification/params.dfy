/** Compile-time constants of the sender (the `#define`s of GoBackN.h that the model keeps). */
module Params {
  /** Capacity of side A's sliding window. */
  const MAX_WINDOW_SIZE: nat := 10

  /** Result codes of the layer-5 send handlers. */
  const TX_SUCCESS: int := 1
  const TX_REFUSED: int := 0
}
