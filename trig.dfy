/** The trigonometry the animation uses: `math.sin` and `math.cos` are
    abstracted as two arbitrary real functions bounded by [-1, 1], and
    SIN_TABLE / COS_TABLE are their values at whole degrees 0..359,
    precomputed once. */
module Trig {

  /** `math.pi` as the float Python holds. */
  const Pi: real := 3.141592653589793

  /** The 360 entries of each precomputed table. */
  const TableSize: nat := 360

  /** `math.sin` and `math.cos`; their values are not modelled. */
  datatype Trig = Trig(sin: real -> real, cos: real -> real)

  /** The only fact about `math.sin` and `math.cos` the model relies on. */
  ghost predicate Bounded(t: Trig) {
    forall x: real :: -1.0 <= t.sin(x) <= 1.0 && -1.0 <= t.cos(x) <= 1.0
  }

  /** `math.radians`. */
  function Radians(degrees: real): real {
    degrees * Pi / 180.0
  }

  /** A 360-entry table of values in [-1, 1]. */
  predicate UnitTable(s: seq<real>) {
    |s| == TableSize && forall i :: 0 <= i < |s| ==> -1.0 <= s[i] <= 1.0
  }

  /** SIN_TABLE and COS_TABLE. */
  datatype Tables = Tables(sin: seq<real>, cos: seq<real>) {
    /** Both tables have an entry per whole degree, each in [-1, 1]. */
    predicate Valid() {
      UnitTable(sin) && UnitTable(cos)
    }
  }

  /** `[math.sin(math.radians(i)) for i in range(360)]`, and the same for
      cos: one entry per whole degree, and because the sine and cosine are
      bounded, every entry lies in [-1, 1], so each index below 360 is a
      valid lookup. */
  function TablesOf(t: Trig): (tables: Tables)
    ensures |tables.sin| == |tables.cos| == TableSize
    ensures Bounded(t) ==> tables.Valid()
  {
    Tables(seq(TableSize, i => t.sin(Radians(i as real))),
           seq(TableSize, i => t.cos(Radians(i as real))))
  }
}
