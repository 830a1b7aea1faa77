/** The shared state table: one row `[x, y, angle, scratch]` per boid slot. */
module Table {
  import opened Geometry

  /** One row of the `MAX_BOIDS x 4` float table. */
  datatype Row = Row(x: real, y: real, angle: real, scratch: real)

  /** Every row starts as `np.zeros`. */
  const ZeroRow: Row := Row(0.0, 0.0, 0.0, 0.0)

  /** A boid's new position and heading after one step. */
  datatype Pose = Pose(x: real, y: real, angle: real)

  /** Squared distance from (x, y) to the row's position. */
  function Dist2(r: Row, x: real, y: real): real
  {
    Sq(r.x - x) + Sq(r.y - y)
  }

  /** The squared distance of every row of the table, in row order. */
  function Distances2(t: seq<Row>, x: real, y: real): (d: seq<real>)
    ensures |d| == |t|
    ensures forall j :: 0 <= j < |t| ==> d[j] == Dist2(t[j], x, y)
  {
    seq(|t|, j requires 0 <= j < |t| => Dist2(t[j], x, y))
  }

  /** Columns 0..2 of a row overwritten; column 3 kept. */
  function WriteBack(r: Row, x: real, y: real, angle: real): Row
  {
    r.(x := x, y := y, angle := angle)
  }

  /** All indices in `s` name rows of `t`. */
  predicate RowsIn(t: seq<Row>, s: seq<nat>)
  {
    forall a :: 0 <= a < |s| ==> s[a] < |t|
  }

  function SumSin(t: seq<Row>, s: seq<nat>, trig: Trig): real
    requires RowsIn(t, s)
  {
    if s == [] then 0.0 else trig.sinDeg(t[s[0]].angle) + SumSin(t, s[1..], trig)
  }

  function SumCos(t: seq<Row>, s: seq<nat>, trig: Trig): real
    requires RowsIn(t, s)
  {
    if s == [] then 0.0 else trig.cosDeg(t[s[0]].angle) + SumCos(t, s[1..], trig)
  }

  function SumX(t: seq<Row>, s: seq<nat>): real
    requires RowsIn(t, s)
  {
    if s == [] then 0.0 else t[s[0]].x + SumX(t, s[1..])
  }

  function SumY(t: seq<Row>, s: seq<nat>): real
    requires RowsIn(t, s)
  {
    if s == [] then 0.0 else t[s[0]].y + SumY(t, s[1..])
  }

  /** Alignment: the circular mean of the rows' headings, `atan2(sum sin, sum cos)` in degrees. */
  function AlignmentAngle(t: seq<Row>, s: seq<nat>, trig: Trig): real
    requires RowsIn(t, s)
  {
    trig.atan2Deg(SumSin(t, s, trig), SumCos(t, s, trig))
  }

  /** Cohesion: the arithmetic mean of the rows' positions. */
  function Centroid(t: seq<Row>, s: seq<nat>): (real, real)
    requires RowsIn(t, s) && |s| > 0
  {
    (SumX(t, s) / |s| as real, SumY(t, s) / |s| as real)
  }
}
