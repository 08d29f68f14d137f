/**
  Tuning constants of the game, the drawing surface it plays on, and the
  type of the values the game draws from its random source.
  Coordinates and velocities are exact reals; times are integer milliseconds.
 */
module Config {

  /** Added to the bird's velocity on every tick (units per tick squared). */
  const Gravity: real := 0.2
  /** The velocity a jump sets, not adds (negative is upward). */
  const JumpForce: real := -4.0
  /** Leftward distance a pipe moves per tick. */
  const PipeSpeed: real := 2.0
  /** Vertical size of the opening between a top and a bottom pipe. */
  const PipeGap: real := 250.0
  /** Minimum time in milliseconds between two spawned pipe pairs. */
  const PipeFrequency: int := 1800
  const BirdHeight: real := 30.0
  const BirdWidth: real := 40.0

  const PipeWidth: real := 60.0
  /** Smallest extent a randomly placed pipe segment is meant to have. */
  const MinPipeHeight: real := 50.0
  /** Inset applied to both boxes by the collision test. */
  const CollisionBuffer: real := 5.0
  /** Height of the ground strip at the bottom of the field. */
  const GroundHeight: real := 20.0
  /** Horizontal position of every freshly created bird. */
  const BirdStartX: real := 50.0
  /** The preview bird jumps on its own once it falls this far below the middle. */
  const PreviewJumpDepth: real := 50.0
  /** Minimum time in milliseconds between two timed preview jumps. */
  const PreviewJumpInterval: int := 1000
  /** Horizontal distance between the two looping preview pipe pairs. */
  const PreviewPairSpacing: real := 200.0

  /** A drawing surface of the given size. */
  datatype Surface = Surface(width: real, height: real)

  /** The canvas the game is drawn on: a surface whose size is not negative. */
  type Canvas = s: Surface | s.width >= 0.0 && s.height >= 0.0 witness Surface(0.0, 0.0)

  /** A value of the random source: uniformly drawn from [0, 1). */
  type Random = r: real | 0.0 <= r < 1.0
}
