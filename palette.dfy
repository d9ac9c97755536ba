/**
 * The background colours the occupancy views choose between: `bg-green-500`,
 * `bg-yellow-500`, `bg-red-500` and, for an unknown dashboard status,
 * `bg-gray-500`.
 */
module Palette {

  datatype Color = Green | Yellow | Red | Gray

  /** How full a car park an occupancy colour announces; Gray is not an occupancy level. */
  function Severity(c: Color): (n: nat)
    requires c != Gray
    ensures n <= 2
  {
    if c == Green then 0 else if c == Yellow then 1 else 2
  }
}
