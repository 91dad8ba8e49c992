/**
 * Physical quantities as the units library stores them: every length is kept in metres and
 * every linear velocity in metres per second, whatever unit it was written in.
 */
module Units {

  datatype Length = Length(meters: real)

  datatype Velocity = Velocity(metersPerSecond: real)

  const METERS_PER_INCH: real := 0.0254
  const METERS_PER_FOOT: real := 0.3048

  /** `v.inch`: a number of inches as a length. */
  function Inches(v: real): (l: Length)
    ensures InchesOf(l) == v
  {
    Length(v * METERS_PER_INCH)
  }

  /** `l.inch` read back: the length in inches. */
  function InchesOf(l: Length): (v: real)
    ensures v * METERS_PER_INCH == l.meters
  {
    l.meters / METERS_PER_INCH
  }

  /** `v.feet`: a number of feet as a length. */
  function Feet(v: real): (l: Length)
    ensures l.meters == v * 0.3048
    ensures InchesOf(l) == 12.0 * v
  {
    Length(v * METERS_PER_FOOT)
  }

  /** `v.feet.velocity`: a number read as feet per second. */
  function FeetPerSecond(v: real): (s: Velocity)
    ensures s.metersPerSecond == Feet(v).meters
  {
    Velocity(v * METERS_PER_FOOT)
  }

  function Plus(a: Length, b: Length): (c: Length)
    ensures InchesOf(c) == InchesOf(a) + InchesOf(b)
  {
    Length(a.meters + b.meters)
  }

  function Minus(a: Length, b: Length): (c: Length)
    ensures InchesOf(c) == InchesOf(a) - InchesOf(b)
  {
    Length(a.meters - b.meters)
  }
}
