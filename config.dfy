/** Tuning constants of the simulation core (src/config.py, plus the two literals of src/boid.py). */
module Config {
  /** BOID_SIZE: declared as an int in the source, used only in real comparisons. */
  const BoidSize: real := 17.0
  /** BOID_SPEED, pixels per second. */
  const BoidSpeed: real := 170.0
  /** TURN_RATE, degrees per second. */
  const TurnRate: real := 190.0
  /** MARGIN: distance to a screen edge at which edge avoidance takes over. */
  const Margin: real := 42.0
  /** WRAP_EDGES. */
  const WrapEdges: bool := false
  /** MAX_BOIDS: the number of rows of the shared table. */
  const MaxBoids: nat := 500

  /** `k = 7` in Boid.update: how many nearest rows are looked at. */
  const NeighbourLimit: nat := 7
  /** A turn whose raw angle difference is at most 1.2 degrees is ignored. */
  const DeadZone: real := 1.2

  /** The source compares true distances with radii; the model compares squared
      distances with squared radii, which is the same test for non-negative values. */
  const PerceptionRadius2: real := (12.0 * BoidSize) * (12.0 * BoidSize)
  const AlignmentRadius2: real := (6.0 * BoidSize) * (6.0 * BoidSize)
  const SeparationRadius2: real := BoidSize * BoidSize
}
