/** The simulation of src/simulation.py: a fixed MAX_BOIDS-row table, a dense spawn counter, and
    a tick that updates every boid in spawn order against the table as it is being rewritten. */
module FlockSimulation {
  import opened Config
  import opened Geometry
  import opened Table
  import opened Steering

  /** The per-boid rule of a tick: Boid.update with the tick's `dt` and `WRAP_EDGES`, applied to the
      boid whose state is row `i` of the table as it stands. */
  function BoidStep(w: real, h: real, dt: real, trig: Trig): (seq<Row>, nat) -> Pose
  {
    (t: seq<Row>, i: nat) =>
      if i < |t| then Step(t, i, t[i].x, t[i].y, t[i].angle, w, h, dt, WrapEdges, trig)
      else Pose(0.0, 0.0, 0.0)
  }

  /** Row `i` rewritten with the pose `rule` computes for it from the table `t` as it stands. */
  function Advance(t: seq<Row>, i: nat, rule: (seq<Row>, nat) -> Pose): (r: seq<Row>)
    requires i < |t|
    ensures |r| == |t|
    ensures forall j :: 0 <= j < |t| && j != i ==> r[j] == t[j]
    ensures r[i] == Row(rule(t, i).x, rule(t, i).y, rule(t, i).angle, t[i].scratch)
  {
    var p := rule(t, i);
    t[i := WriteBack(t[i], p.x, p.y, p.angle)]
  }

  /** The table after the first `k` boids have been updated, one after the other. */
  function Sweep(t: seq<Row>, k: nat, rule: (seq<Row>, nat) -> Pose): (r: seq<Row>)
    requires k <= |t|
    ensures |r| == |t|
  {
    if k == 0 then t else Advance(Sweep(t, k - 1, rule), k - 1, rule)
  }

  /** Rows of boids not yet updated, and rows of unused slots, are untouched by the sweep. */
  lemma {:induction false} SweepLeavesLaterRows(t: seq<Row>, k: nat, rule: (seq<Row>, nat) -> Pose)
    requires k <= |t|
    ensures forall j :: k <= j < |t| ==> Sweep(t, k, rule)[j] == t[j]
  {
    if k > 0 {
      SweepLeavesLaterRows(t, k - 1, rule);
    }
  }

  /** Once a boid has been updated, the boids after it in the sweep leave its row alone. */
  lemma {:induction false} SweepSettlesEarlierRows(t: seq<Row>, i: nat, k: nat, rule: (seq<Row>, nat) -> Pose)
    requires i < k <= |t|
    ensures Sweep(t, k, rule)[i] == Sweep(t, i + 1, rule)[i]
  {
    if k > i + 1 {
      SweepSettlesEarlierRows(t, i, k - 1, rule);
    }
  }

  /** The mixed snapshot: boid `i` steers against a table whose earlier rows already hold this
      tick's results and whose own and later rows still hold the previous tick's. */
  lemma SweepSeesAdvancedRows(t: seq<Row>, i: nat, k: nat, rule: (seq<Row>, nat) -> Pose)
    requires i < k <= |t|
    ensures Sweep(t, i, rule) == Sweep(t, k, rule)[..i] + t[i..]
    ensures Sweep(t, k, rule)[i] == Advance(Sweep(t, k, rule)[..i] + t[i..], i, rule)[i]
  {
    var before := Sweep(t, i, rule);
    var after := Sweep(t, k, rule);
    SweepLeavesLaterRows(t, i, rule);
    SweepSettlesEarlierRows(t, i, k, rule);
    forall j | 0 <= j < i
      ensures before[j] == after[j]
    {
      SweepSettlesEarlierRows(t, j, i, rule);
      SweepSettlesEarlierRows(t, j, k, rule);
    }
    assert before == after[..i] + t[i..];
  }

  /** The sweep never changes column 3 of any row. */
  lemma {:induction false} SweepKeepsScratch(t: seq<Row>, k: nat, rule: (seq<Row>, nat) -> Pose)
    requires k <= |t|
    ensures forall j :: 0 <= j < |t| ==> Sweep(t, k, rule)[j].scratch == t[j].scratch
  {
    if k > 0 {
      SweepKeepsScratch(t, k - 1, rule);
    }
  }

  /** One boid's step keeps its heading in [0, 360]. */
  lemma BoidStepKeepsHeading(t: seq<Row>, i: nat, w: real, h: real, dt: real, trig: Trig)
    requires i < |t| && 0.0 <= t[i].angle <= 360.0
    ensures 0.0 <= BoidStep(w, h, dt, trig)(t, i).angle <= 360.0
  {
    StepHeading(t, i, t[i].x, t[i].y, t[i].angle, w, h, dt, WrapEdges, trig);
  }

  /** A rule that keeps the heading of the row it steps in [0, 360]. */
  ghost predicate KeepsHeading(rule: (seq<Row>, nat) -> Pose)
  {
    forall t: seq<Row>, i: nat :: i < |t| && 0.0 <= t[i].angle <= 360.0 ==> 0.0 <= rule(t, i).angle <= 360.0
  }

  /** A sweep with a heading-keeping rule keeps every heading of the table in [0, 360]. */
  lemma {:induction false} SweepKeepsRange(t: seq<Row>, k: nat, rule: (seq<Row>, nat) -> Pose)
    requires k <= |t| && KeepsHeading(rule)
    requires forall j :: 0 <= j < |t| ==> 0.0 <= t[j].angle <= 360.0
    ensures forall j :: 0 <= j < |t| ==> 0.0 <= Sweep(t, k, rule)[j].angle <= 360.0
  {
    if k > 0 {
      SweepKeepsRange(t, k - 1, rule);
    }
  }

  /** Headings in [0, 360] stay in [0, 360] through a tick. */
  lemma SweepKeepsHeadingsInRange(t: seq<Row>, k: nat, w: real, h: real, dt: real, trig: Trig)
    requires k <= |t|
    requires forall j :: 0 <= j < |t| ==> 0.0 <= t[j].angle <= 360.0
    ensures forall j :: 0 <= j < |t| ==> 0.0 <= Sweep(t, k, BoidStep(w, h, dt, trig))[j].angle <= 360.0
  {
    forall t': seq<Row>, i: nat | i < |t'| && 0.0 <= t'[i].angle <= 360.0
      ensures 0.0 <= BoidStep(w, h, dt, trig)(t', i).angle <= 360.0
    {
      BoidStepKeepsHeading(t', i, w, h, dt, trig);
    }
    SweepKeepsRange(t, k, BoidStep(w, h, dt, trig));
  }

  /** The simulation: the shared table, the spawn counter and the boids in spawn order. */
  class Simulation {
    const shared: array<Row>
    var numBoids: nat
    var boids: seq<Boid>

    /** Boid `i` owns row `i` of the shared table and mirrors its state there; the rows past the
        counter are still zero, column 3 is never written, and every heading lies in [0, 360]
        (the range of the spawn heading `randint(0, 360)`, which the steps keep). */
    predicate Valid()
      reads this, shared, boids
    {
      shared.Length == MaxBoids && |boids| == numBoids <= MaxBoids &&
      (forall i :: 0 <= i < numBoids ==> boids[i].index == i && boids[i].data == shared) &&
      (forall i :: 0 <= i < numBoids ==>
         shared[i].x == boids[i].x && shared[i].y == boids[i].y && shared[i].angle == boids[i].angle) &&
      (forall i :: numBoids <= i < MaxBoids ==> shared[i] == ZeroRow) &&
      (forall i :: 0 <= i < MaxBoids ==> shared[i].scratch == 0.0) &&
      (forall i :: 0 <= i < MaxBoids ==> 0.0 <= shared[i].angle <= 360.0)
    }

    /** A `MAX_BOIDS x 4` table of zeros and no boids. */
    constructor ()
      ensures Valid() && fresh(shared)
      ensures numBoids == 0 && boids == []
      ensures shared[..] == seq(MaxBoids, _ => ZeroRow)
    {
      shared := new Row[MaxBoids](_ => ZeroRow);
      numBoids := 0;
      boids := [];
    }

    /** `add_boid`: below capacity, a new boid takes the next row index and the counter grows by one;
        at capacity nothing happens. The spawn position and heading are the caller's; the heading is
        one of `randint(0, 360)`'s values, so it lies in [0, 360]. */
    method AddBoid(startX: real, startY: real, startAngle: real)
      requires Valid() && 0.0 <= startAngle <= 360.0
      modifies this, shared
      ensures Valid()
      ensures old(numBoids) < MaxBoids ==>
                numBoids == old(numBoids) + 1 &&
                |boids| == numBoids && boids[..old(numBoids)] == old(boids) &&
                fresh(boids[old(numBoids)]) && boids[old(numBoids)].index == old(numBoids) &&
                shared[..] == old(shared[..])[old(numBoids) := Row(startX, startY, startAngle, 0.0)]
      ensures old(numBoids) == MaxBoids ==>
                numBoids == old(numBoids) && boids == old(boids) && shared[..] == old(shared[..])
    {
      if numBoids < MaxBoids {
        var b := new Boid(numBoids, shared, startX, startY, startAngle);
        boids := boids + [b];
        numBoids := numBoids + 1;
      }
    }

    /** Rewriting one live boid's row from that boid's new state, and touching no other boid, keeps
        the table and the boids consistent. */
    twostate lemma RowWriteKeepsValid(i: nat)
      requires old(Valid()) && i < numBoids && unchanged(this)
      requires 0.0 <= boids[i].angle <= 360.0
      requires forall j | 0 <= j < numBoids && j != i :: unchanged(boids[j])
      requires shared[..] == old(shared[..])[i := WriteBack(old(shared[i]), boids[i].x, boids[i].y, boids[i].angle)]
      ensures Valid()
    {
      forall j | 0 <= j < numBoids && j != i
        ensures shared[j] == old(shared[j])
      {
        assert shared[..][j] == old(shared[..])[j];
      }
    }

    /** One boid's update inside the sweep: only that boid and its row change. */
    method UpdateOne(i: nat, dt: real, w: real, h: real, trig: Trig)
      requires Valid() && i < numBoids
      modifies shared, boids[i]
      ensures Valid()
      ensures shared[..] == Advance(old(shared[..]), i, BoidStep(w, h, dt, trig))
    {
      var b := boids[i];
      ghost var table := shared[..];
      ghost var p := BoidStep(w, h, dt, trig)(table, i);
      assert p == Step(table, i, b.x, b.y, b.angle, w, h, dt, WrapEdges, trig);
      b.Update(dt, WrapEdges, w, h, trig);
      assert Pose(b.x, b.y, b.angle) == p;
      BoidStepKeepsHeading(table, i, w, h, dt, trig);
      forall j | 0 <= j < numBoids && j != i
        ensures unchanged(boids[j])
      {
        assert boids[j].index != b.index;
      }
      RowWriteKeepsValid(i);
    }

    /** `update`: every boid, in spawn order, steps with the same `dt` and `WRAP_EDGES`, each one
        reading the table as the boids before it have left it. */
    method Update(dt: real, w: real, h: real, trig: Trig)
      requires Valid()
      modifies shared, boids
      ensures Valid() && numBoids == old(numBoids) && boids == old(boids)
      ensures shared[..] == Sweep(old(shared[..]), numBoids, BoidStep(w, h, dt, trig))
    {
      var i := 0;
      while i < numBoids
        invariant 0 <= i <= numBoids
        invariant Valid()
        invariant shared[..] == Sweep(old(shared[..]), i, BoidStep(w, h, dt, trig))
      {
        UpdateOne(i, dt, w, h, trig);
        i := i + 1;
      }
    }
  }
}
