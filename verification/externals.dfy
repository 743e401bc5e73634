/**
 * What the modelled code borrows from libraries outside it: number and trace
 * rendering, and the range checks of the wider earthquake library. They are
 * parameters of the model, so every property proved holds whatever they do.
 */
module Externals {

  /** A point of a fault trace: latitude, longitude, depth. */
  datatype Location = Location(lat: real, lon: real, depth: real)

  /** Text renderings performed by library code. */
  datatype Formats = Formats(
    double: real -> string,           // Double.toString(double)
    integer: int -> string,           // Integer.toString(int)
    doubles: seq<real> -> string,     // Arrays.toString(double[])
    fixed5: real -> string,           // String.format("%.5f", x)
    trace: seq<Location> -> string,   // LocationList.toString()
    scaling: RuptureScaling -> string) // RuptureScaling.toString()

  /** The earthquake library's rupture scaling relations. */
  datatype RuptureScaling =
    | NONE
    | NSHM_FAULT_CA_ELLB_WC94_AREA
    | NSHM_FAULT_WC94_LENGTH
    | NSHM_POINT_WC94_LENGTH
    | NSHM_SOMERVILLE
    | NSHM_SUB_GEOMAT_LENGTH
    | PEER

  /** Argument checks of the earthquake library: each accepts a value or throws. */
  datatype Checks = Checks(
    rake: real -> bool,               // Faults.checkRake
    dip: real -> bool,                // Faults.checkDip
    crustalDepth: real -> bool,       // Faults.checkCrustalDepth
    crustalWidth: real -> bool,       // Faults.checkCrustalWidth
    trace: seq<Location> -> bool,     // Faults.checkTrace
    name: string -> bool)             // validateName

  /** `Boolean.toString(b)` */
  function BoolText(b: bool): (r: string)
    ensures r == "true" <==> b
  {
    if b then "true" else "false"
  }
}
