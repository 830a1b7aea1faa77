/** The per-boid steering step of src/boid.py and the in-place write-back to the shared table. */
module Steering {
  import opened Config
  import opened Angles
  import opened Geometry
  import opened Table
  import opened Selection

  /** The neighbour whose squared distance is smallest (the first such, as `np.argmin` picks). */
  function Closest(t: seq<Row>, nb: seq<nat>, x: real, y: real): (c: nat)
    requires RowsIn(t, nb) && |nb| > 0
    ensures c in nb && c < |t|
    ensures forall a :: 0 <= a < |nb| ==> Dist2(t[c], x, y) <= Dist2(t[nb[a]], x, y)
  {
    nb[ArgMin(Distances2(t, x, y), nb)]
  }

  /** The separation rule applies: the nearest neighbour is closer than BOID_SIZE. */
  predicate Separating(t: seq<Row>, nb: seq<nat>, x: real, y: real)
    requires RowsIn(t, nb) && |nb| > 0
  {
    Dist2(t[Closest(t, nb, x, y)], x, y) < SeparationRadius2
  }

  /** The point steered at: the nearest neighbour while separating, else the neighbours' centroid. */
  function TargetPoint(t: seq<Row>, nb: seq<nat>, x: real, y: real): (real, real)
    requires RowsIn(t, nb) && |nb| > 0
  {
    if Separating(t, nb, x, y) then
      var c := Closest(t, nb, x, y);
      (t[c].x, t[c].y)
    else Centroid(t, nb)
  }

  /** The polar angle of the target vector, or the alignment angle when the target point is closer than 6 * BOID_SIZE. */
  function TargetAngle(t: seq<Row>, nb: seq<nat>, x: real, y: real, trig: Trig): real
    requires RowsIn(t, nb) && |nb| > 0
  {
    var (tx, ty) := TargetPoint(t, nb, x, y);
    if Sq(tx - x) + Sq(ty - y) < AlignmentRadius2 then AlignmentAngle(t, nb, trig)
    else trig.atan2Deg(ty - y, tx - x)
  }

  /** The neighbour rules' turn for a raw angle difference: nothing inside the dead zone,
      otherwise the difference brought into [-180, 180). */
  function DeadZoned(diff: real): (r: real)
    ensures r != 0.0 ==> Abs(diff) > DeadZone && r == Normalize(diff)
    ensures Abs(diff) > DeadZone ==> r == Normalize(diff)
    ensures -180.0 <= r < 180.0
  {
    if Abs(diff) > DeadZone then Normalize(diff) else 0.0
  }

  /** The turn direction the neighbour rules produce (alignment, cohesion and separation). */
  function RuleTurn(t: seq<Row>, nb: seq<nat>, x: real, y: real, angle: real, trig: Trig): real
    requires RowsIn(t, nb)
  {
    if |nb| == 0 then 0.0
    else
      var turn := DeadZoned(TargetAngle(t, nb, x, y, trig) - angle);
      var c := Closest(t, nb, x, y);
      if Separating(t, nb, x, y) && TargetPoint(t, nb, x, y) == (t[c].x, t[c].y) then -turn else turn
  }

  /** The turn direction after edge avoidance, which replaces the rules' turn inside the margin when not wrapping. */
  function TurnDirection(t: seq<Row>, self: nat, x: real, y: real, angle: real,
                         w: real, h: real, wrap: bool, trig: Trig): real
    requires self < |t|
  {
    if !wrap && EdgeDistance(x, y, w, h) < Margin then Normalize(EdgeTarget(x, y, w, h) - angle)
    else RuleTurn(t, Neighbours(t, self, x, y), x, y, angle, trig)
  }

  /** Only the sign of the turn is used: a fixed `TURN_RATE * dt` rotation, then `% 360`. */
  function NewHeading(angle: real, turn: real, dt: real): (a: real)
    ensures turn == 0.0 ==> a == angle
    ensures turn != 0.0 ==> 0.0 <= a < 360.0 && a == Mod360(angle + Sign(turn) * (TurnRate * dt))
  {
    if turn != 0.0 then Mod360(angle + TurnRate * dt * (if turn > 0.0 then 1.0 else -1.0)) else angle
  }

  /** A coordinate advanced by `speed * dt` along one component of the heading's unit vector. */
  function Displaced(c: real, component: real, dt: real, s: real): real
  {
    c + component * dt * s
  }

  /** Moving `speed * dt` along the heading, then the optional wrap. */
  function Integrate(x: real, y: real, a: real, s: real, dt: real, w: real, h: real, wrap: bool, trig: Trig): Pose
  {
    var px := Displaced(x, trig.dirX(a), dt, s);
    var py := Displaced(y, trig.dirY(a), dt, s);
    if wrap then Pose(WrapCoord(px, w), WrapCoord(py, h), a) else Pose(px, py, a)
  }

  /** `BOID_SPEED + (7 - n) * 2`: sparser neighbourhoods move faster. */
  function Speed(n: nat): (s: real)
    ensures n <= NeighbourLimit ==> BoidSpeed <= s <= BoidSpeed + 14.0
    ensures n == 0 ==> s == BoidSpeed + 14.0
    ensures n == NeighbourLimit ==> s == BoidSpeed
  {
    BoidSpeed + (7.0 - n as real) * 2.0
  }

  /** One call of Boid.update, as a function of the table it reads and the boid's own state. */
  function Step(t: seq<Row>, self: nat, x: real, y: real, angle: real,
                w: real, h: real, dt: real, wrap: bool, trig: Trig): Pose
    requires self < |t|
  {
    var a := NewHeading(angle, TurnDirection(t, self, x, y, angle, w, h, wrap, trig), dt);
    Integrate(x, y, a, Speed(|Neighbours(t, self, x, y)|), dt, w, h, wrap, trig)
  }

  // ---------------------------------------------------------------------------
  // Properties of the step

  /** The equality test of the separation override adds nothing: the turn is reversed exactly when separating. */
  lemma RuleTurnReversesIffSeparating(t: seq<Row>, nb: seq<nat>, x: real, y: real, angle: real, trig: Trig)
    requires RowsIn(t, nb) && |nb| > 0
    ensures RuleTurn(t, nb, x, y, angle, trig) ==
            (if Separating(t, nb, x, y) then -1.0 else 1.0) * DeadZoned(TargetAngle(t, nb, x, y, trig) - angle)
  {
  }

  /** Separation: the boid aims at its nearest neighbour, which lies inside the alignment radius,
      so the angle reversed is the neighbours' mean heading. */
  lemma SeparationSteersAway(t: seq<Row>, nb: seq<nat>, x: real, y: real, angle: real, trig: Trig)
    requires RowsIn(t, nb) && |nb| > 0 && Separating(t, nb, x, y)
    ensures TargetPoint(t, nb, x, y) == (t[Closest(t, nb, x, y)].x, t[Closest(t, nb, x, y)].y)
    ensures TargetAngle(t, nb, x, y, trig) == AlignmentAngle(t, nb, trig)
    ensures RuleTurn(t, nb, x, y, angle, trig) == -DeadZoned(AlignmentAngle(t, nb, trig) - angle)
  {
    var c := Closest(t, nb, x, y);
    assert Sq(t[c].x - x) + Sq(t[c].y - y) == Dist2(t[c], x, y);
  }

  /** Without neighbours the rules leave the turn at 0; with them a nonzero turn lies outside the
      dead zone and is plus or minus the normalised difference to the target angle. */
  lemma RuleTurnShape(t: seq<Row>, nb: seq<nat>, x: real, y: real, angle: real, trig: Trig)
    requires RowsIn(t, nb)
    ensures |nb| == 0 ==> RuleTurn(t, nb, x, y, angle, trig) == 0.0
    ensures |nb| > 0 && RuleTurn(t, nb, x, y, angle, trig) != 0.0 ==>
              var d := TargetAngle(t, nb, x, y, trig) - angle;
              Abs(d) > DeadZone &&
              (RuleTurn(t, nb, x, y, angle, trig) == Normalize(d) || RuleTurn(t, nb, x, y, angle, trig) == -Normalize(d))
    ensures -180.0 <= RuleTurn(t, nb, x, y, angle, trig) <= 180.0
  {
    if |nb| > 0 {
      RuleTurnReversesIffSeparating(t, nb, x, y, angle, trig);
    }
  }

  /** Inside the margin, when not wrapping, edge avoidance decides the turn whatever the neighbours are. */
  lemma EdgeOverridesRules(t: seq<Row>, t': seq<Row>, self: nat, x: real, y: real, angle: real,
                           w: real, h: real, trig: Trig)
    requires self < |t| && self < |t'|
    requires EdgeDistance(x, y, w, h) < Margin
    ensures TurnDirection(t, self, x, y, angle, w, h, false, trig) == Normalize(EdgeTarget(x, y, w, h) - angle)
    ensures TurnDirection(t, self, x, y, angle, w, h, false, trig) == TurnDirection(t', self, x, y, angle, w, h, false, trig)
    ensures y < Margin ==> TurnDirection(t, self, x, y, angle, w, h, false, trig) == Normalize(90.0 - angle)
  {
  }

  /** Heading update: unchanged when the turn is 0 (so a spawn heading of 360 persists), otherwise
      turned by exactly the rate of `TURN_RATE * dt` in the turn's direction and reduced into [0, 360). */
  lemma StepHeading(t: seq<Row>, self: nat, x: real, y: real, angle: real,
                    w: real, h: real, dt: real, wrap: bool, trig: Trig)
    requires self < |t|
    ensures var turn := TurnDirection(t, self, x, y, angle, w, h, wrap, trig);
            var a := Step(t, self, x, y, angle, w, h, dt, wrap, trig).angle;
            (turn == 0.0 ==> a == angle) &&
            (turn != 0.0 ==> 0.0 <= a < 360.0 && a == Mod360(angle + Sign(turn) * (TurnRate * dt)))
    ensures 0.0 <= angle <= 360.0 ==> 0.0 <= Step(t, self, x, y, angle, w, h, dt, wrap, trig).angle <= 360.0
    ensures 0.0 <= angle < 360.0 ==> 0.0 <= Step(t, self, x, y, angle, w, h, dt, wrap, trig).angle < 360.0
  {
  }

  /** The motion of a step: the speed lies in [BOID_SPEED, BOID_SPEED + 14]; without wrapping the
      position is the integrated one, never clamped; with wrapping each integrated coordinate passes
      through WrapCoord (see WrapTeleports for its cases) and ends on screen. */
  lemma StepMotion(t: seq<Row>, self: nat, x: real, y: real, angle: real,
                   w: real, h: real, dt: real, wrap: bool, trig: Trig)
    requires self < |t|
    ensures var s := Speed(|Neighbours(t, self, x, y)|);
            var a := NewHeading(angle, TurnDirection(t, self, x, y, angle, w, h, wrap, trig), dt);
            var px := Displaced(x, trig.dirX(a), dt, s);
            var py := Displaced(y, trig.dirY(a), dt, s);
            var p := Step(t, self, x, y, angle, w, h, dt, wrap, trig);
            BoidSpeed <= s <= BoidSpeed + 14.0 && p.angle == a &&
            (!wrap ==> p.x == px && p.y == py) &&
            (wrap ==> p.x == WrapCoord(px, w) && p.y == WrapCoord(py, h)) &&
            (wrap && 0.0 <= w && 0.0 <= h ==> 0.0 <= p.x <= w && 0.0 <= p.y <= h)
  {
    var s := Speed(|Neighbours(t, self, x, y)|);
    var a := NewHeading(angle, TurnDirection(t, self, x, y, angle, w, h, wrap, trig), dt);
    var p := Integrate(x, y, a, s, dt, w, h, wrap, trig);
    assert Step(t, self, x, y, angle, w, h, dt, wrap, trig) == p;
  }

  /** A zero time step moves nothing and, for a heading in [0, 360), turns nothing. */
  lemma ZeroDtStandsStill(t: seq<Row>, self: nat, x: real, y: real, angle: real,
                          w: real, h: real, wrap: bool, trig: Trig)
    requires self < |t| && 0.0 <= angle < 360.0
    requires wrap ==> 0.0 <= x <= w && 0.0 <= y <= h
    ensures Step(t, self, x, y, angle, w, h, 0.0, wrap, trig) == Pose(x, y, angle)
  {
  }

  /** A boid with no other row inside the perception radius has no neighbours: away from the
      edges (or when wrapping) it keeps its heading and moves at the top speed. */
  lemma IsolatedBoidGoesStraight(t: seq<Row>, self: nat, x: real, y: real, angle: real,
                                 w: real, h: real, dt: real, wrap: bool, trig: Trig)
    requires self < |t|
    requires forall j :: 0 <= j < |t| && j != self ==> Dist2(t[j], x, y) >= PerceptionRadius2
    requires wrap || EdgeDistance(x, y, w, h) >= Margin
    ensures Neighbours(t, self, x, y) == []
    ensures Step(t, self, x, y, angle, w, h, dt, wrap, trig).angle == angle
    ensures Speed(|Neighbours(t, self, x, y)|) == BoidSpeed + 14.0
  {
    var d := Distances2(t, x, y);
    PerceivedDropsOutside(d, Nearest(d, self, |t|));
  }

  /** The selection scans every table row, unused zero rows at the origin included: a lone live boid
      within the perception radius of (0, 0) counts 7 neighbours and moves at the base speed. */
  lemma LoneBoidSeesPhantomRows(t: seq<Row>, self: nat, x: real, y: real)
    requires self < |t| && |t| == MaxBoids
    requires forall j :: 0 <= j < |t| && j != self ==> t[j] == ZeroRow
    requires Sq(x) + Sq(y) < PerceptionRadius2
    ensures |Neighbours(t, self, x, y)| == NeighbourLimit
    ensures Speed(|Neighbours(t, self, x, y)|) == BoidSpeed
  {
    var d := Distances2(t, x, y);
    var s := Nearest(d, self, |t|);
    forall a | 0 <= a < |s|
      ensures d[s[a]] < PerceptionRadius2
    {
      assert t[s[a]] == ZeroRow;
      assert Sq(0.0 - x) == Sq(x) && Sq(0.0 - y) == Sq(y);
    }
    PerceivedKeepsInside(d, s);
  }

  // ---------------------------------------------------------------------------
  // The boid object

  /** A boid: its row index in the shared table, the table itself, and its own position and heading. */
  class Boid {
    const index: nat
    const data: array<Row>
    var x: real
    var y: real
    var angle: real

    /** The boid's row exists (`mask[self.index]` raises otherwise). */
    predicate Valid()
    {
      index < data.Length
    }

    /** The boid's row holds its position and heading. */
    predicate Mirrored()
      requires Valid()
      reads this, data
    {
      data[index].x == x && data[index].y == y && data[index].angle == angle
    }

    /** Spawn at a given position and heading (chosen by the caller from the mouse or at random),
        writing them into the boid's row. */
    constructor (index: nat, data: array<Row>, startX: real, startY: real, startAngle: real)
      requires index < data.Length
      modifies data
      ensures this.index == index && this.data == data && Valid()
      ensures x == startX && y == startY && angle == startAngle
      ensures data[..] == old(data[..])[index := WriteBack(old(data[index]), startX, startY, startAngle)]
      ensures Mirrored()
    {
      this.index := index;
      this.data := data;
      x, y, angle := startX, startY, startAngle;
      new;
      UpdateSharedData();
    }

    /** `_update_shared_data`: columns 0, 1 and 2 of the boid's own row; column 3 and every other row are unchanged. */
    method UpdateSharedData()
      requires Valid()
      modifies data
      ensures data[..] == old(data[..])[index := WriteBack(old(data[index]), x, y, angle)]
      ensures Mirrored() && data[index].scratch == old(data[index].scratch)
    {
      data[index] := data[index].(x := x);
      data[index] := data[index].(y := y);
      data[index] := data[index].(angle := angle);
    }

    /** Alignment, cohesion and separation (the `len(neighbors) > 0` block of Boid.update):
        the turn direction they ask for, 0 when there are no neighbours. */
    method RuleSteering(table: seq<Row>, neighbors: seq<nat>, trig: Trig) returns (turnDir: real)
      requires RowsIn(table, neighbors)
      ensures turnDir == RuleTurn(table, neighbors, x, y, angle, trig)
    {
      var dists := Distances2(table, x, y);
      turnDir := 0.0;
      if |neighbors| > 0 {
        var avgAngle := AlignmentAngle(table, neighbors, trig);
        var targetV := Centroid(table, neighbors);
        var closest := neighbors[ArgMin(dists, neighbors)];
        var closestDist2 := dists[closest];
        if closestDist2 < SeparationRadius2 {
          targetV := (table[closest].x, table[closest].y);
        }
        var targetAngle := trig.atan2Deg(targetV.1 - y, targetV.0 - x);
        if Sq(targetV.0 - x) + Sq(targetV.1 - y) < AlignmentRadius2 {
          targetAngle := avgAngle;
        }
        var diffAngle := Normalize(targetAngle - angle);
        if Abs(targetAngle - angle) > DeadZone {
          turnDir := diffAngle;
        }
        if closestDist2 < SeparationRadius2 && targetV == (table[closest].x, table[closest].y) {
          turnDir := -turnDir;
        }
        assert closest == Closest(table, neighbors, x, y);
        assert targetV == TargetPoint(table, neighbors, x, y);
        assert targetAngle == TargetAngle(table, neighbors, x, y, trig);
      }
    }

    /** Edge avoidance (the `not wrap_edges` block of Boid.update): inside the margin the turn becomes
        the normalised difference to the heading facing away from the nearest edge, vertical edges last. */
    method EdgeSteering(ruleTurn: real, wrap: bool, w: real, h: real) returns (turnDir: real)
      ensures turnDir == (if !wrap && EdgeDistance(x, y, w, h) < Margin
                          then Normalize(EdgeTarget(x, y, w, h) - angle) else ruleTurn)
    {
      turnDir := ruleTurn;
      if !wrap {
        var minEdgeDist := EdgeDistance(x, y, w, h);
        if minEdgeDist < Margin {
          var targetA := 0.0;
          if x < Margin { targetA := 0.0; } else if x > w - Margin { targetA := 180.0; }
          if y < Margin { targetA := 90.0; } else if y > h - Margin { targetA := 270.0; }
          assert targetA == EdgeTarget(x, y, w, h);
          turnDir := Normalize(targetA - angle);
          // The source computes an edge turn-rate modifier here and never applies it.
          var rateMod := (1.0 - minEdgeDist / Margin) * (20.0 - TurnRate);
        }
      }
    }

    /** The heading update: a fixed `TURN_RATE * dt` rotation in the turn's direction, then `% 360`. */
    method Turn(turnDir: real, dt: real)
      modifies this
      ensures angle == NewHeading(old(angle), turnDir, dt)
      ensures x == old(x) && y == old(y)
    {
      var turnRate := TurnRate * dt;
      if turnDir != 0.0 {
        var direction := if turnDir > 0.0 then 1.0 else -1.0;
        angle := angle + turnRate * direction;
        angle := Mod360(angle);
      }
    }

    /** Moving along the heading at the neighbour-dependent speed, then the optional wrap. */
    method Move(count: nat, dt: real, wrap: bool, w: real, h: real, trig: Trig)
      modifies this
      ensures Pose(x, y, angle) == Integrate(old(x), old(y), old(angle), Speed(count), dt, w, h, wrap, trig)
    {
      var dir := (trig.dirX(angle), trig.dirY(angle));
      var actualSpeed := BoidSpeed + (7.0 - count as real) * 2.0;
      var px, py := x + dir.0 * dt * actualSpeed, y + dir.1 * dt * actualSpeed;
      if wrap {
        if px < 0.0 { px := w; } else if px > w { px := 0.0; }
        if py < 0.0 { py := h; } else if py > h { py := 0.0; }
      }
      x, y := px, py;
    }

    /** Boid.update: read the whole table, steer, move, optionally wrap, write the own row back. */
    method Update(dt: real, wrap: bool, w: real, h: real, trig: Trig)
      requires Valid()
      modifies this, data
      ensures Pose(x, y, angle) == Step(old(data[..]), index, old(x), old(y), old(angle), w, h, dt, wrap, trig)
      ensures data[..] == old(data[..])[index := WriteBack(old(data[index]), x, y, angle)]
      ensures Mirrored()
    {
      var table := data[..];
      var neighbors := Neighbours(table, index, x, y);
      var ruleTurn := RuleSteering(table, neighbors, trig);
      var turnDir := EdgeSteering(ruleTurn, wrap, w, h);
      assert turnDir == TurnDirection(table, index, x, y, angle, w, h, wrap, trig);
      Turn(turnDir, dt);
      Move(|neighbors|, dt, wrap, w, h, trig);
      UpdateSharedData();
    }
  }
}
