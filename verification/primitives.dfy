/** Values the source receives from platform types and never inspects. */
module Primitives {

  /** A `Double` latitude or longitude. The model never computes with it:
      floating-point behaviour and its text rendering are not modelled. */
  datatype Coordinate = Coordinate(degrees: real)
}
