/** The older steering step of boid.py (BOILS.update): the same rules with a full sort of the
    candidates, the neighbour count taken from the array's cell count, and an edge turn-rate blend. */
module LegacySteering {
  import opened Config
  import opened Angles
  import opened Geometry
  import opened Table
  import opened Selection
  import opened Steering

  /** The turn rate the edge blend moves towards at the very edge. */
  const EdgeTurnRate: real := 20.0

  /** Cells per table row: `neiboids.size` is four times the number of neighbour rows. */
  const CellsPerRow: nat := 4

  /** `(a / 360 - (a // 360)) * 360 - 180` with `a = d + 180`, Python's `//` being floor division. */
  function LegacyWrapDiff(d: real): real
  {
    var a := d + 180.0;
    (a / 360.0 - (a / 360.0).Floor as real) * 360.0 - 180.0
  }

  /** The fraction-based reduction is the usual normalisation into [-180, 180). */
  lemma LegacyWrapDiffIsNormalize(d: real)
    ensures LegacyWrapDiff(d) == Normalize(d)
    ensures -180.0 <= LegacyWrapDiff(d) < 180.0
  {
    var a := d + 180.0;
    var f := (a / 360.0).Floor as real;
    assert (a / 360.0 - f) * 360.0 == a - 360.0 * f;
  }

  /** The target point: the first kept neighbour when it is closer than `bSize`, else the centroid. */
  function LegacyTargetPoint(t: seq<Row>, nb: seq<nat>, x: real, y: real): (real, real)
    requires RowsIn(t, nb) && |nb| > 0
  {
    if Dist2(t[nb[0]], x, y) < SeparationRadius2 then (t[nb[0]].x, t[nb[0]].y) else Centroid(t, nb)
  }

  /** Squared `tDistance`, the length `as_polar` returns for the target vector. */
  function LegacyTargetDist2(t: seq<Row>, nb: seq<nat>, x: real, y: real): real
    requires RowsIn(t, nb) && |nb| > 0
  {
    var (tx, ty) := LegacyTargetPoint(t, nb, x, y);
    Sq(tx - x) + Sq(ty - y)
  }

  /** `tAngle`: the target vector's polar angle, or the alignment angle when `tDistance < bSize * 6`. */
  function LegacyTargetAngle(t: seq<Row>, nb: seq<nat>, x: real, y: real, trig: Trig): real
    requires RowsIn(t, nb) && |nb| > 0
  {
    var (tx, ty) := LegacyTargetPoint(t, nb, x, y);
    if LegacyTargetDist2(t, nb, x, y) < AlignmentRadius2 then AlignmentAngle(t, nb, trig)
    else trig.atan2Deg(ty - y, tx - x)
  }

  /** The rule block of BOILS.update, over the kept neighbours in their sorted order. */
  function LegacyRuleTurn(t: seq<Row>, nb: seq<nat>, x: real, y: real, ang: real, trig: Trig): real
    requires RowsIn(t, nb)
  {
    if CellsPerRow * |nb| > 1 then
      var tAngle := LegacyTargetAngle(t, nb, x, y, trig);
      var turn := if Abs(tAngle - ang) > DeadZone then LegacyWrapDiff(tAngle - ang) else 0.0;
      if LegacyTargetDist2(t, nb, x, y) < SeparationRadius2 &&
         LegacyTargetPoint(t, nb, x, y) == (t[nb[0]].x, t[nb[0]].y)
      then -turn else turn
    else 0.0
  }

  /** The cell-count test `size > 1` runs the rules exactly when at least one neighbour row
      survives; the turn is reversed exactly when the first neighbour is closer than `bSize`, and
      reversed or not it is the dead-zoned normalised difference to the target angle. */
  lemma LegacyReversalIffSeparating(t: seq<Row>, nb: seq<nat>, x: real, y: real, ang: real, trig: Trig)
    requires RowsIn(t, nb)
    ensures |nb| == 0 ==> LegacyRuleTurn(t, nb, x, y, ang, trig) == 0.0
    ensures |nb| > 0 ==>
              LegacyRuleTurn(t, nb, x, y, ang, trig) ==
              (if Dist2(t[nb[0]], x, y) < SeparationRadius2 then -1.0 else 1.0) *
              DeadZoned(LegacyTargetAngle(t, nb, x, y, trig) - ang)
  {
    if |nb| > 0 {
      var d := LegacyTargetAngle(t, nb, x, y, trig) - ang;
      LegacyWrapDiffIsNormalize(d);
      var first := t[nb[0]];
      if Dist2(first, x, y) < SeparationRadius2 {
        assert LegacyTargetDist2(t, nb, x, y) == Dist2(first, x, y);
      } else if LegacyTargetPoint(t, nb, x, y) == (first.x, first.y) {
        assert LegacyTargetDist2(t, nb, x, y) == Dist2(first, x, y);
      }
    }
  }

  /** With the neighbours listed nearest first, `np.argmin` picks the first of them. */
  lemma ArgMinOfAscending(d: seq<real>, s: seq<nat>)
    requires InRange(d, s) && Ascending(d, s) && |s| > 0
    ensures ArgMin(d, s) == 0
  {
    var m := ArgMin(d, s);
    if m > 0 {
      assert false;
    }
  }

  /** On neighbours sorted by distance the old rule block and the refactored one turn alike. */
  lemma LegacyRulesAgree(t: seq<Row>, nb: seq<nat>, x: real, y: real, ang: real, trig: Trig)
    requires RowsIn(t, nb)
    requires InRange(Distances2(t, x, y), nb) && Ascending(Distances2(t, x, y), nb)
    ensures LegacyRuleTurn(t, nb, x, y, ang, trig) == RuleTurn(t, nb, x, y, ang, trig)
  {
    if |nb| > 0 {
      ArgMinOfAscending(Distances2(t, x, y), nb);
      assert Closest(t, nb, x, y) == nb[0];
      assert LegacyTargetPoint(t, nb, x, y) == TargetPoint(t, nb, x, y);
      assert LegacyTargetAngle(t, nb, x, y, trig) == TargetAngle(t, nb, x, y, trig);
      LegacyReversalIffSeparating(t, nb, x, y, ang, trig);
      RuleTurnReversesIffSeparating(t, nb, x, y, ang, trig);
    }
  }

  /** `argsort(...)[:7]` followed by the radius filter: the kept rows come nearest first. */
  lemma LegacyNeighboursAscending(t: seq<Row>, bnum: nat, x: real, y: real)
    requires bnum < |t|
    ensures InRange(Distances2(t, x, y), Neighbours(t, bnum, x, y))
    ensures Ascending(Distances2(t, x, y), Neighbours(t, bnum, x, y))
  {
    var d := Distances2(t, x, y);
    assert Neighbours(t, bnum, x, y) == Perceived(d, Nearest(d, bnum, |t|));
    PerceivedAscending(d, Nearest(d, bnum, |t|));
  }

  /** `neiboids[0]` is the nearest row of the whole table other than the boid's own. */
  lemma LegacyFirstIsNearest(t: seq<Row>, bnum: nat, x: real, y: real)
    requires bnum < |t| && |Neighbours(t, bnum, x, y)| > 0
    ensures forall j :: 0 <= j < |t| && j != bnum ==>
              Dist2(t[Neighbours(t, bnum, x, y)[0]], x, y) <= Dist2(t[j], x, y)
  {
    var d := Distances2(t, x, y);
    var s := Nearest(d, bnum, |t|);
    var nb := Perceived(d, s);
    assert Neighbours(t, bnum, x, y) == nb;
    PerceivedIsPrefix(d, s);
    assert nb[0] == s[0];
    NearestIsBottom(d, bnum, |t|);
    forall j | 0 <= j < |t| && j != bnum
      ensures d[s[0]] <= d[j]
    {
      if j in s {
        var b :| 0 <= b < |s| && s[b] == j;
        if b > 0 {
          assert d[s[0]] <= d[s[b]];
        }
      }
    }
  }

  /** `turnRate + (1 - edgeDist / margin) * (20 - turnRate)`. */
  function LegacyEdgeRate(rate: real, edgeDist: real): real
  {
    rate + (1.0 - edgeDist / Margin) * (EdgeTurnRate - rate)
  }

  /** A fraction of a non-negative amount lies between 0 and the amount. */
  lemma FractionOf(f: real, c: real)
    requires 0.0 <= f <= 1.0 && 0.0 <= c
    ensures 0.0 <= f * c <= c
  {
    assert c - f * c == (1.0 - f) * c;
  }

  /** The blend is the base rate at the margin, 20 at the edge, and in between inside the margin. */
  lemma LegacyEdgeRateBlend(rate: real, edgeDist: real)
    ensures LegacyEdgeRate(rate, Margin) == rate
    ensures LegacyEdgeRate(rate, 0.0) == EdgeTurnRate
    ensures 0.0 <= edgeDist <= Margin ==>
              Min(rate, EdgeTurnRate) <= LegacyEdgeRate(rate, edgeDist) <= Max(rate, EdgeTurnRate)
  {
    var f := 1.0 - edgeDist / Margin;
    assert LegacyEdgeRate(rate, edgeDist) == rate + f * (EdgeTurnRate - rate);
    if 0.0 <= edgeDist <= Margin {
      assert 0.0 <= f <= 1.0;
      if rate <= EdgeTurnRate {
        FractionOf(f, EdgeTurnRate - rate);
      } else {
        FractionOf(f, rate - EdgeTurnRate);
        assert f * (EdgeTurnRate - rate) == -(f * (rate - EdgeTurnRate));
      }
    }
  }

  /** The turn direction and turn rate after edge avoidance: inside the margin, when not wrapping,
      the target is the inward angle (no dead zone) and the rate is blended towards 20. */
  function LegacyTurn(t: seq<Row>, bnum: nat, x: real, y: real, ang: real,
                      w: real, h: real, dt: real, ejWrap: bool, trig: Trig): (real, real)
    requires bnum < |t|
  {
    var edgeDist := EdgeDistance(x, y, w, h);
    if !ejWrap && edgeDist < Margin then
      (LegacyWrapDiff(EdgeTarget(x, y, w, h) - ang), LegacyEdgeRate(TurnRate * dt, edgeDist))
    else (LegacyRuleTurn(t, Neighbours(t, bnum, x, y), x, y, ang, trig), TurnRate * dt)
  }

  /** `(rate * |turn|) / turn` is the rate signed like the turn. */
  lemma SignedRate(rate: real, turn: real)
    requires turn != 0.0
    ensures rate * Abs(turn) / turn == Sign(turn) * rate
  {
    if turn > 0.0 {
      assert rate * Abs(turn) == rate * turn;
    } else {
      assert rate * Abs(turn) == -(rate * turn);
    }
  }

  /** `ang += turnRate * abs(turnDir) / turnDir; ang %= 360`, skipped when the turn is 0. */
  function LegacyNewHeading(ang: real, turn: real, rate: real): (a: real)
    ensures turn == 0.0 ==> a == ang
    ensures turn != 0.0 ==> 0.0 <= a < 360.0 && a == Mod360(ang + Sign(turn) * rate)
  {
    if turn != 0.0 then
      SignedRate(rate, turn);
      Mod360(ang + rate * Abs(turn) / turn)
    else ang
  }

  /** `speed + (7 - neiboids.size) * 2` for `rows` neighbour rows. */
  function LegacySpeed(speed: real, rows: nat): (s: real)
    ensures rows <= NeighbourLimit ==> speed - 42.0 <= s <= speed + 14.0
    ensures rows == 0 ==> s == speed + 14.0
    ensures rows >= 2 ==> s < speed
  {
    speed + (7.0 - (CellsPerRow * rows) as real) * 2.0
  }

  /** The cell count makes each neighbour cost 8 instead of 2: one neighbour gives 176 where the
      refactored Speed gives 182, and seven give 128, below BOID_SPEED. */
  lemma LegacySpeedOvercounts(rows: nat)
    ensures LegacySpeed(BoidSpeed, rows) == Speed(rows) - 6.0 * rows as real
    ensures rows >= 1 ==> LegacySpeed(BoidSpeed, rows) < Speed(rows)
    ensures LegacySpeed(BoidSpeed, 1) == 176.0 && Speed(1) == 182.0
    ensures LegacySpeed(BoidSpeed, NeighbourLimit) == 128.0
  {
  }

  /** The pose after one BOILS.update (the wrap branch is never reached: it raises first). */
  function LegacyStep(t: seq<Row>, bnum: nat, x: real, y: real, ang: real, w: real, h: real,
                      dt: real, speed: real, ejWrap: bool, trig: Trig): Pose
    requires bnum < |t|
  {
    var (turn, rate) := LegacyTurn(t, bnum, x, y, ang, w, h, dt, ejWrap, trig);
    Integrate(x, y, LegacyNewHeading(ang, turn, rate), LegacySpeed(speed, |Neighbours(t, bnum, x, y)|),
              dt, w, h, false, trig)
  }

  /** At the unblended rate the old heading update is the refactored one. */
  lemma LegacyHeadingAgrees(ang: real, turn: real, dt: real)
    ensures LegacyNewHeading(ang, turn, TurnRate * dt) == NewHeading(ang, turn, dt)
  {
  }

  /** Away from the edges the old step turns exactly like the refactored one: same turn direction
      and the unblended rate. */
  lemma LegacyTurnMatchesAwayFromEdges(t: seq<Row>, bnum: nat, x: real, y: real, ang: real,
                                       w: real, h: real, dt: real, trig: Trig)
    requires bnum < |t| && EdgeDistance(x, y, w, h) >= Margin
    ensures LegacyTurn(t, bnum, x, y, ang, w, h, dt, false, trig) ==
            (TurnDirection(t, bnum, x, y, ang, w, h, false, trig), TurnRate * dt)
    ensures LegacyNewHeading(ang, TurnDirection(t, bnum, x, y, ang, w, h, false, trig), TurnRate * dt) ==
            NewHeading(ang, TurnDirection(t, bnum, x, y, ang, w, h, false, trig), dt)
  {
    var nb := Neighbours(t, bnum, x, y);
    LegacyNeighboursAscending(t, bnum, x, y);
    LegacyRulesAgree(t, nb, x, y, ang, trig);
    var turn := TurnDirection(t, bnum, x, y, ang, w, h, false, trig);
    assert turn == RuleTurn(t, nb, x, y, ang, trig);
    LegacyHeadingAgrees(ang, turn, dt);
  }

  /** Inside the margin the old step aims at the same inward angle as the refactored one, without a
      dead zone, vertical edges first, but at the blended rate. */
  lemma LegacyEdgeTurn(t: seq<Row>, bnum: nat, x: real, y: real, ang: real,
                       w: real, h: real, dt: real, trig: Trig)
    requires bnum < |t| && EdgeDistance(x, y, w, h) < Margin
    ensures LegacyTurn(t, bnum, x, y, ang, w, h, dt, false, trig).0 ==
            TurnDirection(t, bnum, x, y, ang, w, h, false, trig)
    ensures LegacyTurn(t, bnum, x, y, ang, w, h, dt, false, trig).1 ==
            LegacyEdgeRate(TurnRate * dt, EdgeDistance(x, y, w, h))
  {
    LegacyWrapDiffIsNormalize(EdgeTarget(x, y, w, h) - ang);
  }

  // ---------------------------------------------------------------------------
  // The legacy boid object

  /** A legacy boid: its row number, the shared table, and its own position and heading. */
  class Boils {
    const bnum: nat
    const data: array<Row>
    var x: real
    var y: real
    var ang: real

    /** The constructor keeps the table untouched: the first write happens at the end of an update. */
    constructor (bnum: nat, data: array<Row>, startX: real, startY: real, startAng: real)
      ensures this.bnum == bnum && this.data == data
      ensures x == startX && y == startY && ang == startAng
    {
      this.bnum := bnum;
      this.data := data;
      x, y, ang := startX, startY, startAng;
    }

    /** The rule block (boid.py lines 47-64). The distances written to column 3 go into a copy of
        the selected rows, so the table is not touched. */
    method RuleSteering(table: seq<Row>, neiboids: seq<nat>, trig: Trig) returns (turnDir: real)
      requires RowsIn(table, neiboids)
      ensures turnDir == LegacyRuleTurn(table, neiboids, x, y, ang, trig)
    {
      turnDir := 0.0;
      if CellsPerRow * |neiboids| > 1 {
        var tAvejAng := AlignmentAngle(table, neiboids, trig);
        var targetV := Centroid(table, neiboids);
        var first := (table[neiboids[0]].x, table[neiboids[0]].y);
        if Dist2(table[neiboids[0]], x, y) < SeparationRadius2 {
          targetV := first;
        }
        var tDistance2 := Sq(targetV.0 - x) + Sq(targetV.1 - y);
        var tAngle := trig.atan2Deg(targetV.1 - y, targetV.0 - x);
        if tDistance2 < AlignmentRadius2 {
          tAngle := tAvejAng;
        }
        var angleDiff := (tAngle - ang) + 180.0;
        if Abs(tAngle - ang) > DeadZone {
          turnDir := (angleDiff / 360.0 - (angleDiff / 360.0).Floor as real) * 360.0 - 180.0;
        }
        if tDistance2 < SeparationRadius2 && targetV == first {
          turnDir := -turnDir;
        }
        assert targetV == LegacyTargetPoint(table, neiboids, x, y);
        assert tAngle == LegacyTargetAngle(table, neiboids, x, y, trig);
      }
    }

    /** Edge avoidance (boid.py lines 66-74): the inward angle by sequential overwrites and the
        blended turn rate. */
    method EdgeSteering(ruleTurn: real, rate: real, ejWrap: bool, w: real, h: real)
      returns (turnDir: real, turnRate: real)
      ensures (turnDir, turnRate) ==
              (if !ejWrap && EdgeDistance(x, y, w, h) < Margin
               then (LegacyWrapDiff(EdgeTarget(x, y, w, h) - ang), LegacyEdgeRate(rate, EdgeDistance(x, y, w, h)))
               else (ruleTurn, rate))
    {
      turnDir, turnRate := ruleTurn, rate;
      if !ejWrap && EdgeDistance(x, y, w, h) < Margin {
        var tAngle := 0.0;
        if x < Margin { tAngle := 0.0; } else if x > w - Margin { tAngle := 180.0; }
        if y < Margin { tAngle := 90.0; } else if y > h - Margin { tAngle := 270.0; }
        SequentialEdgeTargetIsPriority(0.0, x, y, w, h);
        assert tAngle == EdgeTarget(x, y, w, h);
        var angleDiff := (tAngle - ang) + 180.0;
        turnDir := (angleDiff / 360.0 - (angleDiff / 360.0).Floor as real) * 360.0 - 180.0;
        var edgeDist := EdgeDistance(x, y, w, h);
        turnRate := turnRate + (1.0 - edgeDist / Margin) * (EdgeTurnRate - turnRate);
        assert turnDir == LegacyWrapDiff(EdgeTarget(x, y, w, h) - ang);
        assert turnRate == LegacyEdgeRate(rate, edgeDist);
      }
    }

    /** The heading update (boid.py lines 75-77). */
    method Turn(turnDir: real, turnRate: real)
      modifies this
      ensures ang == LegacyNewHeading(old(ang), turnDir, turnRate)
      ensures x == old(x) && y == old(y)
    {
      if turnDir != 0.0 {
        ang := ang + turnRate * Abs(turnDir) / turnDir;
        ang := Mod360(ang);
      }
    }

    /** The movement (boid.py lines 81-82), at the cell-count speed. */
    method Move(rows: nat, dt: real, speed: real, w: real, h: real, trig: Trig)
      modifies this
      ensures Pose(x, y, ang) == Integrate(old(x), old(y), old(ang), LegacySpeed(speed, rows), dt, w, h, false, trig)
    {
      var dir := (trig.dirX(ang), trig.dirY(ang));
      var s := speed + (7.0 - (CellsPerRow * rows) as real) * 2.0;
      x, y := x + dir.0 * dt * s, y + dir.1 * dt * s;
    }

    /** BOILS.update. It fails (`crashed`) when the row number is outside the table (`np.delete`
        raises before anything changes) or when wrapping is asked for (the wrap test reads a missing
        attribute after the move, so the pose has changed but the row is not written). */
    method Update(dt: real, speed: real, ejWrap: bool, w: real, h: real, trig: Trig) returns (crashed: bool)
      modifies this, data
      ensures crashed <==> bnum >= data.Length || ejWrap
      ensures bnum >= data.Length ==> x == old(x) && y == old(y) && ang == old(ang)
      ensures bnum < data.Length ==>
                Pose(x, y, ang) == LegacyStep(old(data[..]), bnum, old(x), old(y), old(ang), w, h, dt, speed, ejWrap, trig)
      ensures crashed ==> data[..] == old(data[..])
      ensures !crashed ==> data[..] == old(data[..])[bnum := WriteBack(old(data[bnum]), x, y, ang)]
    {
      if bnum >= data.Length {
        return true;
      }
      var table := data[..];
      var neiboids := Neighbours(table, bnum, x, y);
      var ruleTurn := RuleSteering(table, neiboids, trig);
      var turnDir, turnRate := EdgeSteering(ruleTurn, TurnRate * dt, ejWrap, w, h);
      assert (turnDir, turnRate) == LegacyTurn(table, bnum, x, y, ang, w, h, dt, ejWrap, trig);
      Turn(turnDir, turnRate);
      Move(|neiboids|, dt, speed, w, h, trig);
      if ejWrap {
        return true;
      }
      data[bnum] := WriteBack(data[bnum], x, y, ang);
      crashed := false;
    }
  }
}
