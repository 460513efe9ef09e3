/** Geographic coordinates as the program stores them. */
module Coords {

  /** An `f32`, kept as its IEEE-754 bit pattern: coordinates are only copied
      from one structure to another, never computed on. */
  datatype F32 = F32(bits: bv32)

  /** `0.0_f32`. */
  const Zero: F32 := F32(0)

  /** `conf::Location` / `api::Location`: a latitude and a longitude. */
  datatype Location = Location(lat: F32, lon: F32)
}
